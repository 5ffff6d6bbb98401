/**
 * The pure part of the data cleanup script (cleanup_data.py): how a source
 * file's path is turned into the flat name it gets in the output directory,
 * and how a `.gz` output name loses its last suffix.
 *
 * A path is its sequence of components (`PurePath.parts`); components never
 * contain a separator.
 */
module CleanupData {
  import opened Wrappers
  import opened Seqs

  datatype Path = Path(parts: seq<string>)

  /** Whether `.gz` inputs are decompressed (and their output name loses `.gz`). */
  const DECOMPRESS_GZ: bool := true

  /** The split directory names that follow a field/year directory. */
  const SPLITS: seq<string> := ["train", "test", "val"]

  /** `PurePath.name`: the last component, or "" for an empty path. */
  function Name(p: Path): string
  {
    if |p.parts| == 0 then "" else p.parts[|p.parts| - 1]
  }

  /** `dir / name` for a single component; joining "" leaves the path as it is. */
  function Join(dir: Path, name: string): (r: Path)
    ensures name != "" ==> r.parts == dir.parts + [name] && Name(r) == name
    ensures name == "" ==> r == dir
  {
    if name == "" then dir else Path(dir.parts + [name])
  }

  /** The `Field,Year-Year` pattern test: the component contains both `,` and `-`. */
  predicate IsFieldYear(part: string)
  {
    ',' in part && '-' in part
  }

  predicate IsSplit(part: string)
  {
    part in SPLITS
  }

  /** `part.replace(',', '_')` */
  function ReplaceCommas(s: string): (r: string)
    ensures |r| == |s|
    ensures forall i :: 0 <= i < |s| ==> r[i] == (if s[i] == ',' then '_' else s[i])
    ensures ',' !in r
  {
    seq(|s|, i requires 0 <= i < |s| => if s[i] == ',' then '_' else s[i])
  }

  /** `s` ends with `t`. */
  predicate EndsWith(s: string, t: string)
  {
    |t| <= |s| && s[|s| - |t|..] == t
  }

  /**
   * The file name `generate_unique_filename` builds. Only the first component
   * matching the field/year pattern is looked at; the rule applies when the
   * component right after it is a split name.
   */
  function NewName(original: Path): (r: string)
    ensures EndsWith(r, Name(original))
    ensures forall i :: 0 <= i < |original.parts| - 1 && FirstFieldYear(original.parts, i)
                        && IsSplit(original.parts[i + 1]) ==>
              r == ReplaceCommas(original.parts[i]) + "_" + original.parts[i + 1] + "_" + Name(original)
    ensures (forall i :: 0 <= i < |original.parts| - 1 && FirstFieldYear(original.parts, i) ==>
               !IsSplit(original.parts[i + 1])) ==>
              r == Name(original)
  {
    var parts := original.parts;
    match FindIndex(parts, IsFieldYear)
    case None => Name(original)
    case Some(i) =>
      if i + 1 < |parts| && IsSplit(parts[i + 1]) then
        var r := ReplaceCommas(parts[i]) + "_" + parts[i + 1] + "_" + Name(original);
        assert r[|r| - |Name(original)|..] == Name(original);
        r
      else Name(original)
  }

  /** Component `i` is the first one matching the field/year pattern. */
  predicate FirstFieldYear(parts: seq<string>, i: int)
  {
    0 <= i < |parts| && IsFieldYear(parts[i]) && forall j :: 0 <= j < i ==> !IsFieldYear(parts[j])
  }

  /** `generate_unique_filename`: the new name, placed directly in the output directory. */
  function GenerateUniqueFilename(original: Path, outputDir: Path): (r: Path)
    ensures Name(original) != "" ==>
              |r.parts| == |outputDir.parts| + 1 && r.parts[..|outputDir.parts|] == outputDir.parts
    ensures Name(original) != "" ==> EndsWith(Name(r), Name(original))
    ensures Name(original) != "" ==> Name(r) == NewName(original)
  {
    Join(outputDir, NewName(original))
  }

  lemma ReplaceCommasNoComma(s: string)
    requires ',' !in s
    ensures ReplaceCommas(s) == s
  {
    assert forall i :: 0 <= i < |s| ==> s[i] != ',';
  }

  /** Replacing commas in `a,b` where `a` has none: `a_` followed by `b` with its commas replaced. */
  lemma ReplaceCommasAtFirst(a: string, b: string)
    requires ',' !in a
    ensures ReplaceCommas(a + "," + b) == a + "_" + ReplaceCommas(b)
  {
    var s := a + "," + b;
    var r := a + "_" + ReplaceCommas(b);
    assert forall i :: 0 <= i < |a| ==> s[i] == a[i] && a[i] != ',';
    assert forall i :: |a| < i < |s| ==> s[i] == b[i - |a| - 1];
    assert forall i :: 0 <= i < |s| ==> ReplaceCommas(s)[i] == r[i];
  }

  lemma ReplaceCommasExample()
    ensures ReplaceCommas("Biology,2022-2022") == "Biology_2022-2022"
  {
    ReplaceCommasAtFirst("Biology", "2022-2022");
    ReplaceCommasNoComma("2022-2022");
  }

  /** A path whose first component is a field/year directory followed by a split gets the rewritten name. */
  lemma {:induction false} RuleAppliesAtFirst(parts: seq<string>)
    requires |parts| >= 2 && IsFieldYear(parts[0]) && IsSplit(parts[1])
    ensures NewName(Path(parts)) == ReplaceCommas(parts[0]) + "_" + parts[1] + "_" + parts[|parts| - 1]
  {
    assert FirstFieldYear(parts, 0);
  }

  lemma IsFieldYearExample()
    ensures IsFieldYear("Biology,2022-2022")
  {
    var part := "Biology,2022-2022";
    assert part[7] == ',' && part[12] == '-';
  }

  lemma DocExampleConcat(fieldYear: string, split: string, base: string)
    requires fieldYear == "Biology_2022-2022" && split == "train" && base == "Biology-2022.gz-0000.json"
    ensures fieldYear + "_" + split + "_" + base == "Biology_2022-2022_train_Biology-2022.gz-0000.json"
  {
  }

  /** The worked example in the function's documentation. */
  lemma DocExample()
    ensures NewName(Path(["Biology,2022-2022", "train", "Biology-2022.gz-0000.json"]))
            == "Biology_2022-2022_train_Biology-2022.gz-0000.json"
  {
    var parts := ["Biology,2022-2022", "train", "Biology-2022.gz-0000.json"];
    IsFieldYearExample();
    RuleAppliesAtFirst(parts);
    ReplaceCommasExample();
    DocExampleConcat(ReplaceCommas(parts[0]), parts[1], parts[2]);
  }

  /**
   * Only the first field/year component is examined: here it is followed by a
   * non-split directory, so the later matching pair is ignored and the
   * basename is kept.
   */
  lemma OnlyFirstFieldYearExamined()
    ensures NewName(Path(["Physics,2020-2021", "raw", "Biology,2022-2022", "train", "a.json"])) == "a.json"
  {
    var parts := ["Physics,2020-2021", "raw", "Biology,2022-2022", "train", "a.json"];
    assert IsFieldYear(parts[0]);
    assert !IsSplit(parts[1]);
  }

  /** `str.rfind` for one character: the last index holding `c`, or -1. */
  function RFind(s: string, c: char): (r: int)
    ensures -1 <= r < |s|
    ensures r == -1 <==> c !in s
    ensures r != -1 ==> s[r] == c && c !in s[r + 1..]
    decreases |s|
  {
    if |s| == 0 then -1
    else if s[|s| - 1] == c then |s| - 1
    else
      assert s == s[..|s| - 1] + [s[|s| - 1]];
      var k := RFind(s[..|s| - 1], c);
      assert k != -1 ==> s[k + 1..] == s[..|s| - 1][k + 1..] + [s[|s| - 1]];
      k
  }

  /** Index `i` holds the last dot of `name`, and that dot is neither its first nor its last character. */
  predicate SuffixDotAt(name: string, i: int)
  {
    0 < i < |name| - 1 && name[i] == '.' && '.' !in name[i + 1..]
  }

  /** A dot with no dot after it is the one `RFind` finds. */
  lemma LastDotIsRFind(name: string, i: nat)
    requires i < |name| && name[i] == '.' && '.' !in name[i + 1..]
    ensures RFind(name, '.') == i
  {
    assert name[i] in name;
  }

  /**
   * `PurePath.suffix` of a name: from the last dot, unless the dot is the
   * first or the last character, in which case there is no suffix.
   */
  function Suffix(name: string): (r: string)
    ensures r == "" || (r[0] == '.' && EndsWith(name, r) && |r| < |name| && '.' !in r[1..])
    ensures forall i :: SuffixDotAt(name, i) ==> r == name[i..]
    ensures r != "" <==> exists i :: SuffixDotAt(name, i)
  {
    var i := RFind(name, '.');
    forall j | SuffixDotAt(name, j)
      ensures j == i
    {
      LastDotIsRFind(name, j);
    }
    if 0 < i < |name| - 1 then
      assert SuffixDotAt(name, i);
      name[i..]
    else ""
  }

  /** A name made of a non-empty stem and `.gz` has the suffix `.gz`. */
  lemma {:induction false} GzSuffix(stem: string)
    requires |stem| > 0
    ensures Suffix(stem + ".gz") == ".gz"
  {
    var name := stem + ".gz";
    assert name[|stem| + 1..] == "gz";
    assert SuffixDotAt(name, |stem|);
    assert name[|stem|..] == ".gz";
  }

  /** `path.with_suffix('')`: `None` where Python raises ValueError for an empty name. */
  function WithoutSuffix(p: Path): (r: Option<Path>)
    ensures r.None? <==> Name(p) == ""
    ensures r.Some? ==> Name(r.value) + Suffix(Name(p)) == Name(p)
    ensures r.Some? ==> r.value.parts[..|r.value.parts| - 1] == p.parts[..|p.parts| - 1]
  {
    var name := Name(p);
    if name == "" then None
    else
      var suffix := Suffix(name);
      var stem := name[..|name| - |suffix|];
      assert stem + suffix == name;
      Some(Path(p.parts[..|p.parts| - 1] + [stem]))
  }

  /** The output path `process_files` uses for one input file (`None`: Python raises). */
  function OutputPath(original: Path, outputDir: Path): (r: Option<Path>)
    ensures Suffix(Name(original)) != ".gz" ==> r == Some(GenerateUniqueFilename(original, outputDir))
  {
    var outputPath := GenerateUniqueFilename(original, outputDir);
    if Suffix(Name(original)) == ".gz" && DECOMPRESS_GZ then WithoutSuffix(outputPath)
    else Some(outputPath)
  }

  /** Putting text in front of a name with a suffix does not change the suffix. */
  lemma {:induction false} SuffixUnderPrefix(prefix: string, base: string)
    requires Suffix(base) != ""
    ensures Suffix(prefix + base) == Suffix(base)
  {
    var i :| SuffixDotAt(base, i);
    var s := prefix + base;
    assert s[|prefix| + i + 1..] == base[i + 1..];
    assert SuffixDotAt(s, |prefix| + i);
    assert s[|prefix| + i..] == base[i..];
  }

  /**
   * A `.gz` input lands directly in the output directory under its new name
   * with the trailing `.gz` removed.
   */
  lemma {:induction false} GzOutputDropsSuffix(original: Path, outputDir: Path)
    requires Suffix(Name(original)) == ".gz"
    ensures var newName := NewName(original);
            && |newName| > 3
            && OutputPath(original, outputDir) == Some(Path(outputDir.parts + [newName[..|newName| - 3]]))
  {
    var base := Name(original);
    var newName := NewName(original);
    assert newName == newName[..|newName| - |base|] + base;
    SuffixUnderPrefix(newName[..|newName| - |base|], base);
    var out := Path(outputDir.parts + [newName]);
    assert GenerateUniqueFilename(original, outputDir) == out;
    assert Name(out) == newName;
    assert out.parts[..|out.parts| - 1] == outputDir.parts;
  }

  /**
   * A file named `<stem>.gz` with a non-empty stem is written directly into
   * the output directory under its unique name with the `.gz` cut off, and
   * that name ends with the stem.
   */
  lemma {:induction false} GzFileOutput(original: Path, outputDir: Path, stem: string)
    requires |stem| > 0 && Name(original) == stem + ".gz"
    ensures var newName := NewName(original);
            && |newName| > 3
            && OutputPath(original, outputDir) == Some(Path(outputDir.parts + [newName[..|newName| - 3]]))
            && EndsWith(newName[..|newName| - 3], stem)
  {
    GzSuffix(stem);
    GzOutputDropsSuffix(original, outputDir);
    DropGzKeepsStem(NewName(original), stem);
  }

  lemma DropGzKeepsStem(name: string, stem: string)
    requires EndsWith(name, stem + ".gz")
    ensures |name| >= 3 && EndsWith(name[..|name| - 3], stem)
  {
    var tail := stem + ".gz";
    var cut := name[..|name| - 3];
    assert name[|name| - |tail|..] == tail;
    forall k | 0 <= k < |stem|
      ensures cut[|cut| - |stem| + k] == stem[k]
    {
      assert cut[|cut| - |stem| + k] == name[|name| - |tail| + k];
      assert name[|name| - |tail| + k] == name[|name| - |tail|..][k];
      assert tail[k] == stem[k];
    }
    assert cut[|cut| - |stem|..] == stem;
  }
}
