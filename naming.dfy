/** Names the tool gives to what it creates: sequence and shot folders
    (`seq_0001`, `sh_0001`, ...), the `seq_xxxx/sh_yyyy` labels of new shots,
    and the `<number>_<name>` project folder, with the ways the source reads
    each of them back. */
module Naming {
  import opened TextOps

  /** The literal names of the template sequence and shot in the scaffold. */
  const TemplateSequence: string := "seq_0001"
  const TemplateShot: string := "sh_0001"

  /** `d` with zeros put in front of it until it is at least `width` long. */
  function ZeroPad(d: string, width: nat): string
    decreases width - |d|
  {
    if |d| >= width then d else ZeroPad("0" + d, width)
  }

  /** `f"{i:04d}"`: the decimal digits of `i`, padded with zeros on the left to at least four. */
  function Pad4(i: nat): (s: string)
    ensures AllDigits(s) && |s| >= 4
  {
    ZeroPadDigits(Decimal(i), 4);
    ZeroPad(Decimal(i), 4)
  }

  lemma {:induction false} ZeroPadDigits(d: string, width: nat)
    requires AllDigits(d)
    ensures AllDigits(ZeroPad(d, width)) && |ZeroPad(d, width)| >= width
    decreases width - |d|
  {
    if |d| < width {
      assert AllDigits("0" + d) by {
        assert forall k :: 1 <= k < |"0" + d| ==> ("0" + d)[k] == d[k - 1];
      }
      ZeroPadDigits("0" + d, width);
    }
  }

  /** Padding puts exactly the missing number of zeros in front. */
  lemma {:induction false} ZeroPadShape(d: string, width: nat)
    ensures ZeroPad(d, width) == if |d| >= width then d else Repeat("0", width - |d|) + d
    decreases width - |d|
  {
    if |d| < width {
      ZeroPadShape("0" + d, width);
      var k := width - |d|;
      assert Repeat("0", k - 1) + "0" == Repeat("0", k) by {
        RepeatZeros(k - 1);
        RepeatZeros(k);
      }
      assert Repeat("0", k - 1) + ("0" + d) == (Repeat("0", k - 1) + "0") + d;
    }
  }

  /** `f"seq_{i:04d}"`. */
  function SeqName(i: nat): string
  {
    "seq_" + Pad4(i)
  }

  /** `f"sh_{j:04d}"`. */
  function ShotName(j: nat): string
  {
    "sh_" + Pad4(j)
  }

  /** `int(name.split('_')[-1])`: the number after the last underscore; `None` where `int` raises. */
  function NameIndex(name: string): Option<nat>
  {
    ParseDecimal(Last(Split(name, "_")))
  }

  /** `f"{seq_name}/sh_{j:04d}"`: the label of one new shot of an existing sequence. */
  function ShotPath(i: nat, j: nat): string
  {
    SeqName(i) + "/" + ShotName(j)
  }

  /** `f"{number}_{name}"`: the project folder. */
  function FolderName(number: string, name: string): string
  {
    number + "_" + name
  }

  /** `s.split(c, 1)` guarded by `c in s`: the text before and after the first `c`,
      or `None` when `s` has no `c`. */
  function SplitFirst(s: string, c: char): (r: Option<(string, string)>)
  {
    if s == [] then None
    else if s[0] == c then Some(([], s[1..]))
    else match SplitFirst(s[1..], c)
      case None => None
      case Some(parts) => Some(([s[0]] + parts.0, parts.1))
  }

  /** Opening a project folder: its number and name, when the folder name has an underscore. */
  function SplitFolderName(folder: string): Option<(string, string)>
  {
    SplitFirst(folder, '_')
  }

  lemma PadValue(i: nat)
    ensures DigitsValue(Pad4(i)) == i
  {
    var d := Decimal(i);
    DecimalRoundTrip(i);
    ZeroPadShape(d, 4);
    if |d| < 4 {
      LeadingZeros(4 - |d|, d);
    }
  }

  /** Padding reaches exactly four digits for the numbers up to 9999 and no others. */
  lemma PadWidth(i: nat)
    ensures |Pad4(i)| == 4 <==> i <= 9999
  {
    DecimalLength(i, 4);
    ZeroPadShape(Decimal(i), 4);
    assert Pow10(4) == 10000;
  }

  lemma {:induction false} NameRoundTrip(prefix: string, i: nat)
    requires '_' !in prefix
    ensures NameIndex(prefix + "_" + Pad4(i)) == Some(i)
  {
    var p := Pad4(i);
    assert '_' !in p by {
      assert forall k :: 0 <= k < |p| ==> IsDigit(p[k]);
    }
    SplitAtFirst(prefix, "_", p, []);
    SplitWithoutSeparator(p, "_", []);
    assert [] + p == p;
    PadValue(i);
  }

  /** Reading the index back from a sequence name gives the number it was made from. */
  lemma SeqNameRoundTrip(i: nat)
    ensures NameIndex(SeqName(i)) == Some(i)
  {
    assert SeqName(i) == "seq" + "_" + Pad4(i);
    NameRoundTrip("seq", i);
  }

  lemma ShotNameRoundTrip(j: nat)
    ensures NameIndex(ShotName(j)) == Some(j)
  {
    assert ShotName(j) == "sh" + "_" + Pad4(j);
    NameRoundTrip("sh", j);
  }

  /** Different numbers give different sequence names, and different shot names. */
  lemma NamesDistinct(i: nat, j: nat)
    ensures SeqName(i) == SeqName(j) <==> i == j
    ensures ShotName(i) == ShotName(j) <==> i == j
  {
    SeqNameRoundTrip(i);
    SeqNameRoundTrip(j);
    ShotNameRoundTrip(i);
    ShotNameRoundTrip(j);
  }

  lemma NoSlashInNames(i: nat)
    ensures '/' !in SeqName(i) && '/' !in ShotName(i)
  {
    var p := Pad4(i);
    assert forall k :: 0 <= k < |p| ==> IsDigit(p[k]);
    assert forall k :: 0 <= k < |SeqName(i)| ==> SeqName(i)[k] != '/' by {
      forall k | 0 <= k < |SeqName(i)| ensures SeqName(i)[k] != '/' {
        if k >= 4 { assert SeqName(i)[k] == p[k - 4]; }
      }
    }
    assert forall k :: 0 <= k < |ShotName(i)| ==> ShotName(i)[k] != '/' by {
      forall k | 0 <= k < |ShotName(i)| ensures ShotName(i)[k] != '/' {
        if k >= 3 { assert ShotName(i)[k] == p[k - 3]; }
      }
    }
  }

  /** `shot.split("/")` on the label of a new shot gives back its sequence and shot names. */
  lemma ShotPathSplit(i: nat, j: nat)
    ensures Split(ShotPath(i, j), "/") == [SeqName(i), ShotName(j)]
  {
    NoSlashInNames(i);
    NoSlashInNames(j);
    var parts := [SeqName(i), ShotName(j)];
    assert Join(parts, "/") == ShotPath(i, j) by {
      assert parts[1..] == [ShotName(j)];
    }
    SplitJoin(parts, '/');
  }

  lemma TemplateNames()
    ensures SeqName(1) == TemplateSequence && ShotName(1) == TemplateShot
  {
    assert Decimal(1) == "1";
    ZeroPadShape("1", 4);
    assert Repeat("0", 3) == "000";
    assert Pad4(1) == "0001";
  }

  /** The project folder name splits back into number and name exactly when the number has no underscore. */
  lemma {:induction false} FolderNameRoundTrip(number: string, name: string)
    ensures SplitFolderName(FolderName(number, name)) == Some((number, name)) <==> '_' !in number
  {
    var s := FolderName(number, name);
    if '_' !in number {
      SplitFirstNoSeparator(number, '_', name);
    } else {
      SplitFirstParts(s, '_');
    }
  }

  lemma {:induction false} SplitFirstNoSeparator(a: string, c: char, b: string)
    requires c !in a
    ensures SplitFirst(a + [c] + b, c) == Some((a, b))
  {
    var s := a + [c] + b;
    if a == [] {
      assert s[0] == c && s[1..] == b;
    } else {
      assert s[0] == a[0] != c;
      assert s[1..] == a[1..] + [c] + b;
      SplitFirstNoSeparator(a[1..], c, b);
      assert [a[0]] + a[1..] == a;
    }
  }

  /** What `SplitFirst` returns always rebuilds the input, and the first part has no separator. */
  lemma {:induction false} SplitFirstParts(s: string, c: char)
    ensures SplitFirst(s, c).None? <==> c !in s
    ensures SplitFirst(s, c).Some? ==>
              c !in SplitFirst(s, c).value.0 && SplitFirst(s, c).value.0 + [c] + SplitFirst(s, c).value.1 == s
  {
    if s != [] && s[0] != c {
      SplitFirstParts(s[1..], c);
      assert s == [s[0]] + s[1..];
      if SplitFirst(s[1..], c).Some? {
        var parts := SplitFirst(s[1..], c).value;
        assert [s[0]] + parts.0 + [c] + parts.1 == [s[0]] + (parts.0 + [c] + parts.1);
      }
    } else if s != [] {
      assert [] + [c] + s[1..] == s;
    }
  }
}
