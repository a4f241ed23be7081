/**
 * The small utilities of helpers/helpers.go: a ternary operator, a JSON dump
 * that swallows errors, and the trimming of a runtime function name to its
 * last path segment.
 */
module Helpers {
  import opened Common

  const DefaultDumpJSONValue: string := ""

  /** Renders `v` as JSON text, or the empty string when marshalling fails. */
  function DumpJSON<T>(j: Json<T, string>, v: T): (s: string)
    ensures j.marshal(v).Err? ==> s == DefaultDumpJSONValue
    ensures j.marshal(v).Ok? ==> s == j.marshal(v).value
  {
    match j.marshal(v)
    case Ok(text) => text
    case Err(_) => DefaultDumpJSONValue
  }

  /** `condition ? trueVal : falseVal`. */
  function TernaryOp<T>(condition: bool, trueVal: T, falseVal: T): (r: T)
    ensures condition ==> r == trueVal
    ensures !condition ==> r == falseVal
  {
    if condition then trueVal else falseVal
  }

  /** `strings.Split(s, "/")`: the pieces between the separators, empty ones included. */
  function Split(s: string): (parts: seq<string>)
    ensures |parts| >= 1
    decreases |s|
  {
    if |s| == 0 then [""]
    else
      var rest := Split(s[1..]);
      if s[0] == '/' then [""] + rest
      else [[s[0]] + rest[0]] + rest[1..]
  }

  /** `strings.Join(parts, "/")`, the inverse of `Split`. */
  function Join(parts: seq<string>): string
    requires |parts| >= 1
    decreases |parts|
  {
    if |parts| == 1 then parts[0] else parts[0] + "/" + Join(parts[1..])
  }

  /** Splitting and joining back restores the text. */
  lemma {:induction false} JoinSplit(s: string)
    ensures Join(Split(s)) == s
    decreases |s|
  {
    if |s| > 0 {
      var rest := Split(s[1..]);
      JoinSplit(s[1..]);
      if s[0] == '/' {
        assert ([""] + rest)[1..] == rest;
      } else if |rest| > 1 {
        var parts := [[s[0]] + rest[0]] + rest[1..];
        assert parts[1..] == rest[1..];
        assert Join(parts) == [s[0]] + (rest[0] + "/" + Join(rest[1..]));
      }
      assert s == [s[0]] + s[1..];
    }
  }

  /** No piece of a split holds a separator. */
  lemma {:induction false} SplitPiecesHaveNoSlash(s: string)
    ensures forall i :: 0 <= i < |Split(s)| ==> '/' !in Split(s)[i]
    decreases |s|
  {
    if |s| > 0 {
      var rest := Split(s[1..]);
      SplitPiecesHaveNoSlash(s[1..]);
      var parts := Split(s);
      if s[0] == '/' {
        assert forall i :: 1 <= i < |parts| ==> parts[i] == rest[i - 1];
      } else {
        assert forall i :: 1 <= i < |parts| ==> parts[i] == rest[i];
      }
    }
  }

  /** A text splits into a single piece exactly when it holds no separator. */
  lemma {:induction false} SplitCount(s: string)
    ensures '/' !in s ==> Split(s) == [s]
    ensures '/' in s ==> |Split(s)| >= 2
    decreases |s|
  {
    if |s| > 0 {
      var tail := s[1..];
      SplitCount(tail);
      assert s == [s[0]] + tail;
      assert '/' in s <==> s[0] == '/' || '/' in tail;
    }
  }

  /** The last piece of a split is the text after the last separator. */
  lemma {:induction false} SplitLast(s: string)
    ensures var last := Split(s)[|Split(s)| - 1];
      |last| <= |s| && s[|s| - |last|..] == last &&
      ('/' in s ==> |last| < |s| && s[|s| - |last| - 1] == '/')
    decreases |s|
  {
    if |s| > 0 {
      var tail := s[1..];
      var rest := Split(tail);
      var parts := Split(s);
      SplitLast(tail);
      SplitCount(tail);
      assert s == [s[0]] + tail;
      var last := parts[|parts| - 1];
      if s[0] == '/' || |rest| > 1 {
        assert last == rest[|rest| - 1];
        assert s[|s| - |last|..] == tail[|tail| - |last|..];
        if '/' !in tail {
          assert last == tail;
        }
      } else {
        assert '/' !in tail;
        assert last == [s[0]] + tail;
      }
    }
  }

  /**
   * `GetFunctionName` once reflection has produced the runtime name
   * `name`: a name holding a '/' is cut down to the text after its last '/',
   * any other name is returned as it is.
   */
  function GetFunctionName(name: string): (r: string)
    ensures '/' !in r
    ensures |r| <= |name| && name[|name| - |r|..] == r
    ensures '/' !in name ==> r == name
    ensures '/' in name ==> |r| < |name| && name[|name| - |r| - 1] == '/'
  {
    SplitPiecesHaveNoSlash(name);
    SplitCount(name);
    SplitLast(name);
    if '/' in name then
      var v := Split(name);
      if |v| == 0 then name else v[|v| - 1]
    else
      name
  }
}
