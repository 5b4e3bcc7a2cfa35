/** `getInputs()`: the action's inputs, with the `getInput` values passed in
    as parameters. The three file lists are comma-separated. */
module Inputs {
  import opened Base
  import opened Strings
  import opened Nerdgraph

  datatype Inputs = Inputs(
    orgId: string,
    apiKey: string,
    region: Region,
    filesAdded: seq<string>,
    filesModified: seq<string>,
    filesDeleted: seq<string>)

  /** Trimming keeps only characters of the original. */
  lemma TrimWithin(s: string, c: char)
    requires c !in s
    ensures c !in Trim(s)
  {
    var t := TrimStart(s);
    assert t == s[|s| - |t|..];
    assert c !in t;
    var r := TrimEnd(t);
    assert r == t[..|r|];
  }

  /** `pieces.map((f) => f.trim())`. */
  function TrimEach(pieces: seq<string>): (r: seq<string>)
    ensures |r| == |pieces|
    ensures forall i :: 0 <= i < |r| ==> r[i] == Trim(pieces[i])
  {
    if |pieces| == 0 then []
    else
      var tail := pieces[1..];
      assert forall i :: 0 <= i < |tail| ==> tail[i] == pieces[i + 1];
      [Trim(pieces[0])] + TrimEach(tail)
  }

  /** Trimmed comma-free pieces are trimmed and comma-free. */
  lemma TrimEachClean(pieces: seq<string>)
    requires forall i :: 0 <= i < |pieces| ==> ',' !in pieces[i]
    ensures forall i :: 0 <= i < |pieces| ==> Trimmed(TrimEach(pieces)[i]) && ',' !in TrimEach(pieces)[i]
  {
    forall i | 0 <= i < |pieces|
      ensures Trimmed(TrimEach(pieces)[i]) && ',' !in TrimEach(pieces)[i]
    {
      TrimWithin(pieces[i], ',');
    }
  }

  /** An empty input is no files; any other is split at each comma together
      with the whitespace around it, and each piece is trimmed. The pieces
      of that split differ from the plain comma split only in whitespace next
      to a comma, which the trim removes anyway. */
  function FileList(input: string): (files: seq<string>)
    ensures input == "" ==> files == []
    ensures input != "" ==> |files| == |Split(input, ',')|
    ensures forall i :: 0 <= i < |files| ==> Trimmed(files[i]) && ',' !in files[i]
  {
    if |input| == 0 then []
    else
      TrimEachClean(Split(input, ','));
      TrimEach(Split(input, ','))
  }

  /** A comma-joined list reads back as its pieces, each trimmed. */
  lemma FileListOfJoin(parts: seq<string>)
    requires |parts| >= 1 && Join(parts, ',') != ""
    requires forall i :: 0 <= i < |parts| ==> ',' !in parts[i]
    ensures FileList(Join(parts, ',')) == TrimEach(parts)
  {
    SplitJoin(parts, ',');
  }

  /** A non-empty list of trimmed, comma-free file names survives being
      joined with commas and read back. */
  lemma FileListRoundTrip(files: seq<string>)
    requires |files| >= 1 && Join(files, ',') != ""
    requires forall i :: 0 <= i < |files| ==> Trimmed(files[i]) && ',' !in files[i]
    ensures FileList(Join(files, ',')) == files
  {
    FileListOfJoin(files);
    forall i | 0 <= i < |files|
      ensures Trim(files[i]) == files[i]
    {
      TrimTrimmed(files[i]);
    }
  }

  /** `getInputs()`. `org-id` and `api-key` pass through, the region goes
      through `toRegion`, and each file list through `FileList`. */
  function GetInputs(orgId: string, apiKey: string, region: string,
                     filesAdded: string, filesModified: string, filesDeleted: string): (r: Inputs)
    ensures r.orgId == orgId && r.apiKey == apiKey
    ensures r.region == ToRegion(Some(region))
    ensures r.filesAdded == FileList(filesAdded)
    ensures r.filesModified == FileList(filesModified)
    ensures r.filesDeleted == FileList(filesDeleted)
  {
    Inputs(orgId, apiKey, ToRegion(Some(region)),
      FileList(filesAdded), FileList(filesModified), FileList(filesDeleted))
  }
}
