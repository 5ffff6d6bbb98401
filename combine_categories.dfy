/**
 * The category grouping of the combine script (combine_categories.py): a file
 * name's category is the text before its first `_`; files are bucketed by
 * category in input order; every paper dict read from a file is tagged in
 * place with the file's name and category; and a category's papers are the
 * concatenation of its files' papers.
 *
 * Globbing, reading and writing files are not modelled: the glob results and
 * what each file read yields are inputs.
 */
module CombineCategories {
  import opened Seqs
  import opened CleanupData

  /** Whether papers are tagged with their source file. */
  const INCLUDE_METADATA: bool := true

  const SOURCE_FILE_KEY: string := "_source_file"
  const SOURCE_CATEGORY_KEY: string := "_source_category"

  const UNKNOWN_CATEGORY: string := "Unknown"

  // ---------------------------------------------------------------------------
  // Category extraction
  // ---------------------------------------------------------------------------

  /** `sep.join(parts)` */
  function JoinWith(parts: seq<string>, sep: char): string
    requires |parts| >= 1
  {
    if |parts| == 1 then parts[0] else parts[0] + [sep] + JoinWith(parts[1..], sep)
  }

  /** `s.split(sep)`: never empty, no piece contains `sep`, and joining the pieces gives `s` back. */
  function Split(s: string, sep: char): (r: seq<string>)
    ensures |r| >= 1
    ensures forall k :: 0 <= k < |r| ==> sep !in r[k]
    ensures JoinWith(r, sep) == s
    decreases |s|
  {
    if |s| == 0 then [""]
    else
      var rest := Split(s[1..], sep);
      assert s == [s[0]] + s[1..];
      if s[0] == sep then [""] + rest
      else
        var r := [[s[0]] + rest[0]] + rest[1..];
        assert r[1..] == rest[1..];
        assert forall k :: 1 <= k < |r| ==> r[k] == rest[k];
        r
  }

  /** The first piece of a join is its prefix, followed by the separator when there are more pieces. */
  lemma {:induction false} JoinWithHead(parts: seq<string>, sep: char)
    requires |parts| >= 2
    ensures |parts[0]| < |JoinWith(parts, sep)|
    ensures JoinWith(parts, sep)[..|parts[0]| + 1] == parts[0] + [sep]
  {
    var j := JoinWith(parts, sep);
    assert j == (parts[0] + [sep]) + JoinWith(parts[1..], sep);
  }

  /**
   * `extract_category_from_filename`: the text before the first `_`, or the
   * whole name when it has none. `str.split` never returns an empty list, so
   * the "Unknown" fallback is never taken.
   */
  function ExtractCategory(filename: string): (r: string)
    ensures '_' !in r
    ensures r == filename || (|r| < |filename| && filename[..|r| + 1] == r + "_")
    ensures '_' !in filename ==> r == filename
  {
    var parts := Split(filename, '_');
    if |parts| >= 2 then JoinWithHead(parts, '_'); parts[0]
    else if |parts| == 1 then parts[0]
    else UNKNOWN_CATEGORY
  }

  /** The documented example, `Biology_2022-2022_train_Biology-2022.gz-0000.json`. */
  lemma CategoryDocExample()
    ensures ExtractCategory("Biology" + "_" + "2022-2022_train_Biology-2022.gz-0000.json") == "Biology"
  {
    CategoryOfJoined("Biology", "2022-2022_train_Biology-2022.gz-0000.json");
  }

  /** A name made of an underscore-free head, `_`, and anything has that head as its category. */
  lemma {:induction false} CategoryOfJoined(head: string, tail: string)
    requires '_' !in head
    ensures ExtractCategory(head + "_" + tail) == head
  {
    var s := head + "_" + tail;
    var r := ExtractCategory(s);
    assert s[|head|] == '_';
    assert r != s;
    assert s[..|r| + 1] == r + "_";
    assert s[|r|] == '_';
    assert forall k :: 0 <= k < |head| ==> s[k] == head[k] && s[k] != '_';
    assert forall k :: 0 <= k < |r| ==> r[k] == s[k] && r[k] != '_';
    assert |r| == |head|;
    assert r == s[..|r|];
  }

  /**
   * The two scripts compose: a file renamed by the cleanup rule falls in the
   * category named by its field, the part of the field/year directory before
   * the comma, when that part has no `_`.
   */
  lemma {:induction false} RenamedFileCategory(original: Path, i: nat, field: string, years: string)
    requires i + 1 < |original.parts| && FirstFieldYear(original.parts, i) && IsSplit(original.parts[i + 1])
    requires original.parts[i] == field + "," + years && ',' !in field && '_' !in field
    ensures ExtractCategory(NewName(original)) == field
  {
    var split := original.parts[i + 1];
    var base := Name(original);
    ReplaceCommasAtFirst(field, years);
    assert NewName(original) == (field + "_" + ReplaceCommas(years)) + "_" + split + "_" + base;
    assert NewName(original) == field + "_" + (ReplaceCommas(years) + "_" + split + "_" + base);
    CategoryOfJoined(field, ReplaceCommas(years) + "_" + split + "_" + base);
  }

  // ---------------------------------------------------------------------------
  // Grouping files by category
  // ---------------------------------------------------------------------------

  function CategoryOf(file: Path): string
  {
    ExtractCategory(Name(file))
  }

  /** `categorize_files`, given the two glob results (`*.json` files, then `*.jsonl` files). */
  method CategorizeFiles(jsonFiles: seq<Path>, jsonlFiles: seq<Path>) returns (categoryFiles: map<string, seq<Path>>)
    ensures IsGrouping(categoryFiles, jsonFiles + jsonlFiles, CategoryOf)
  {
    var allFiles := jsonFiles + jsonlFiles;
    categoryFiles := map[];
    for i := 0 to |allFiles|
      invariant IsGrouping(categoryFiles, allFiles[..i], CategoryOf)
    {
      var filePath := allFiles[i];
      var category := ExtractCategory(Name(filePath));
      var bucket := if category in categoryFiles then categoryFiles[category] else [];
      ghost var before := categoryFiles;
      categoryFiles := categoryFiles[category := bucket + [filePath]];
      assert IsGrouping(categoryFiles, allFiles[..i + 1], CategoryOf) by {
        GroupingSnoc(before, allFiles[..i], filePath, CategoryOf);
        PrefixSnoc(allFiles, i);
      }
    }
    assert allFiles[..|allFiles|] == allFiles;
  }

  // ---------------------------------------------------------------------------
  // Tagging and combining papers
  // ---------------------------------------------------------------------------

  /** A JSON value other than an object: strings are kept apart, anything else is its JSON text. */
  datatype JsonValue = JString(s: string) | JOther(text: string)

  /** A JSON object read from a file; the script mutates it in place. */
  class PaperDict {
    var fields: map<string, JsonValue>

    constructor (fields: map<string, JsonValue>)
      ensures this.fields == fields
    {
      this.fields := fields;
    }
  }

  /** One element of the list a file read yields: a dict (by reference) or any other JSON value. */
  datatype Entry = Dict(obj: PaperDict) | NonDict(value: JsonValue)

  /** A dict's fields once tagged with its source file. */
  function Tagged(fields: map<string, JsonValue>, sourceFile: Path): (r: map<string, JsonValue>)
    ensures r.Keys == fields.Keys + {SOURCE_FILE_KEY, SOURCE_CATEGORY_KEY}
    ensures r[SOURCE_FILE_KEY] == JString(Name(sourceFile))
    ensures r[SOURCE_CATEGORY_KEY] == JString(CategoryOf(sourceFile))
    ensures forall k :: k in fields && k != SOURCE_FILE_KEY && k != SOURCE_CATEGORY_KEY ==> r[k] == fields[k]
  {
    fields[SOURCE_FILE_KEY := JString(Name(sourceFile))][SOURCE_CATEGORY_KEY := JString(CategoryOf(sourceFile))]
  }

  /** Tagging twice is the same as tagging once, so a dict listed twice ends up tagged once. */
  lemma TaggedIdempotent(fields: map<string, JsonValue>, sourceFile: Path)
    ensures Tagged(Tagged(fields, sourceFile), sourceFile) == Tagged(fields, sourceFile)
  {
  }

  /** The dict objects among `papers`. */
  function DictObjects(papers: seq<Entry>): set<PaperDict>
  {
    set k | 0 <= k < |papers| && papers[k].Dict? :: papers[k].obj
  }

  lemma DictObjectsSnoc(papers: seq<Entry>, paper: Entry)
    ensures DictObjects(papers + [paper]) == DictObjects(papers) + (if paper.Dict? then {paper.obj} else {})
  {
    var s := papers + [paper];
    var rhs := DictObjects(papers) + (if paper.Dict? then {paper.obj} else {});
    forall o | o in DictObjects(s)
      ensures o in rhs
    {
      var k :| 0 <= k < |s| && s[k].Dict? && s[k].obj == o;
      if k < |papers| {
        assert s[k] == papers[k];
      }
    }
    forall o | o in rhs
      ensures o in DictObjects(s)
    {
      if o in DictObjects(papers) {
        var k :| 0 <= k < |papers| && papers[k].Dict? && papers[k].obj == o;
        assert s[k] == papers[k];
      } else {
        assert s[|papers|] == paper;
      }
    }
  }

  /** `add_source_metadata`: tags every dict in place and returns the same list. */
  method AddSourceMetadata(papers: seq<Entry>, sourceFile: Path) returns (r: seq<Entry>)
    modifies DictObjects(papers)
    ensures r == papers
    ensures forall k :: 0 <= k < |papers| && papers[k].Dict? ==>
              papers[k].obj.fields == Tagged(old(papers[k].obj.fields), sourceFile)
  {
    for i := 0 to |papers|
      invariant forall k :: 0 <= k < |papers| && papers[k].Dict? ==>
                  papers[k].obj.fields ==
                    if papers[k].obj in DictObjects(papers[..i])
                    then Tagged(old(papers[k].obj.fields), sourceFile)
                    else old(papers[k].obj.fields)
    {
      var paper := papers[i];
      if paper.Dict? {
        paper.obj.fields := paper.obj.fields[SOURCE_FILE_KEY := JString(Name(sourceFile))];
        paper.obj.fields := paper.obj.fields[SOURCE_CATEGORY_KEY := JString(ExtractCategory(Name(sourceFile)))];
      }
      assert papers[..i + 1] == papers[..i] + [paper];
      DictObjectsSnoc(papers[..i], paper);
    }
    assert papers[..|papers|] == papers;
    return papers;
  }

  /** The lists concatenated in order (`extend` in a loop). */
  function Concat<T>(lists: seq<seq<T>>): seq<T>
  {
    if |lists| == 0 then [] else Concat(lists[..|lists| - 1]) + lists[|lists| - 1]
  }

  /** A paper is in the combined list exactly when it is in one of the files' lists. */
  lemma {:induction false} ConcatContains<T>(lists: seq<seq<T>>, x: T)
    ensures x in Concat(lists) <==> exists i :: 0 <= i < |lists| && x in lists[i]
    decreases |lists|
  {
    if |lists| > 0 {
      var init := lists[..|lists| - 1];
      ConcatContains(init, x);
      assert forall i :: 0 <= i < |init| ==> init[i] == lists[i];
    }
  }

  /** Every file read builds new objects, so no dict is shared between two files' lists. */
  predicate DistinctAcrossFiles(contents: seq<seq<Entry>>)
  {
    forall i, j, k, l ::
      (&& 0 <= i < |contents| && 0 <= j < |contents| && i != j
       && 0 <= k < |contents[i]| && 0 <= l < |contents[j]|
       && contents[i][k].Dict? && contents[j][l].Dict?) ==> contents[i][k].obj != contents[j][l].obj
  }

  function AllDictObjects(contents: seq<seq<Entry>>): set<PaperDict>
  {
    set i, k | 0 <= i < |contents| && 0 <= k < |contents[i]| && contents[i][k].Dict? :: contents[i][k].obj
  }

  /**
   * `combine_category_files`, with `contents[i]` the list `read_json_file`
   * yields for `files[i]`: all papers in file order, each dict tagged with
   * its own file, and the total that is reported.
   */
  method CombineCategoryFiles(category: string, files: seq<Path>, contents: seq<seq<Entry>>)
    returns (allPapers: seq<Entry>, totalPapers: nat)
    requires |contents| == |files| && DistinctAcrossFiles(contents)
    modifies AllDictObjects(contents)
    ensures allPapers == Concat(contents)
    ensures totalPapers == |allPapers|
    ensures forall i, k :: 0 <= i < |contents| && 0 <= k < |contents[i]| && contents[i][k].Dict? ==>
              contents[i][k].obj.fields == Tagged(old(contents[i][k].obj.fields), files[i])
  {
    allPapers := [];
    totalPapers := 0;
    for i := 0 to |files|
      invariant allPapers == Concat(contents[..i])
      invariant totalPapers == |allPapers|
      invariant forall j, k :: 0 <= j < i && 0 <= k < |contents[j]| && contents[j][k].Dict? ==>
                  contents[j][k].obj.fields == Tagged(old(contents[j][k].obj.fields), files[j])
      invariant forall j, k :: i <= j < |contents| && 0 <= k < |contents[j]| && contents[j][k].Dict? ==>
                  contents[j][k].obj.fields == old(contents[j][k].obj.fields)
    {
      var papers := contents[i];
      if INCLUDE_METADATA {
        papers := AddSourceMetadata(papers, files[i]);
      }
      allPapers := allPapers + papers;
      totalPapers := totalPapers + |papers|;
      assert contents[..i + 1][..i] == contents[..i];
    }
    assert contents[..|contents|] == contents;
  }
}
