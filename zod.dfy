/** The part of the Zod schema library that the core sees: a parse either yields
    a value or fails with a list of issues, each with a path of property names
    and array indices and a message. What a schema accepts is not modelled; a
    schema is any function from input to parse result. */
module Zod {
  import opened Js
  import Text

  datatype PathSegment = Key(name: string) | Index(i: nat)

  datatype Issue = Issue(path: seq<PathSegment>, message: string)

  datatype ParseResult = Valid(value: JsValue) | Invalid(issues: seq<Issue>)

  /** The message Zod gives a key that is missing from the input. */
  const RequiredMessage: string := "Required"

  /** How `Array.prototype.join` prints one path segment. */
  function SegmentText(p: PathSegment): string
  {
    match p
    case Key(name) => name
    case Index(i) => Text.NatToDecimal(i)
  }

  function SegmentTexts(path: seq<PathSegment>): (r: seq<string>)
    ensures |r| == |path|
    ensures forall k :: 0 <= k < |path| ==> r[k] == SegmentText(path[k])
  {
    seq(|path|, k requires 0 <= k < |path| => SegmentText(path[k]))
  }

  /** `issue.path.join('.')`. */
  function JoinPath(path: seq<PathSegment>): string
  {
    Text.Join(SegmentTexts(path), '.')
  }

  /** The summary of one issue that the validators and the configuration check
      report: `{ path: path.join('.'), message }`. */
  function EntryFor(issue: Issue): JsValue
  {
    Obj([("path", Str(JoinPath(issue.path))), ("message", Str(issue.message))])
  }

  /** `issues.map(...)` with that summary: one entry per issue, in the same order. */
  function IssueEntries(issues: seq<Issue>): (r: seq<JsValue>)
    ensures |r| == |issues|
    ensures forall i :: 0 <= i < |issues| ==> r[i] == EntryFor(issues[i])
  {
    if issues == [] then [] else [EntryFor(issues[0])] + IssueEntries(issues[1..])
  }

  /** A dotted path can be taken apart again when no property name in it
      contains a dot: the pieces are the segments' texts. */
  lemma JoinPathSplits(path: seq<PathSegment>)
    requires |path| >= 1
    requires forall k :: 0 <= k < |path| && path[k].Key? ==> '.' !in path[k].name
    ensures Text.Split(JoinPath(path), '.') == SegmentTexts(path)
  {
    var texts := SegmentTexts(path);
    forall k | 0 <= k < |texts|
      ensures '.' !in texts[k]
    {
      if path[k].Index? {
        var d := Text.NatToDecimal(path[k].i);
        assert forall j :: 0 <= j < |d| ==> Text.IsDigit(d[j]);
      }
    }
    Text.SplitJoin(texts, '.');
  }
}
