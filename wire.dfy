/**
  The bytes write_json_object puts on the socket: each document is printed by
  the JSON library's renderer and sent with its "\n" delimiter in one two-part
  writev. The renderer (json_object_to_json_string) is a parameter.
 */
module Framing {
  import opened Json

  /** The two buffers of one writev call: the printed document, then "\n". */
  function IoVec(doc: Json, render: Json -> string): (v: seq<string>)
    ensures |v| == 2 && v[0] == render(doc) && v[1] == "\n"
  {
    [render(doc), "\n"]
  }

  /** Everything written for `docs`, in order. */
  function Wire(docs: seq<Json>, render: Json -> string): string
  {
    if docs == [] then ""
    else IoVec(docs[0], render)[0] + IoVec(docs[0], render)[1] + Wire(docs[1..], render)
  }

  lemma {:induction false} WireAppend(a: seq<Json>, b: seq<Json>, render: Json -> string)
    ensures Wire(a + b, render) == Wire(a, render) + Wire(b, render)
  {
    if a == [] {
      assert a + b == b;
    } else {
      assert (a + b)[1..] == a[1..] + b;
      WireAppend(a[1..], b, render);
    }
  }

  /** Index of the first newline in `s`, or |s| when there is none. */
  function NextNewline(s: string): (k: nat)
    ensures k <= |s|
    ensures forall j :: 0 <= j < k ==> s[j] != '\n'
    ensures k < |s| ==> s[k] == '\n'
  {
    if s == [] || s[0] == '\n' then 0 else 1 + NextNewline(s[1..])
  }

  /** How a collector splits a line-delimited stream back into documents. */
  function Lines(s: string): seq<string>
    decreases |s|
  {
    if s == [] then []
    else
      var k := NextNewline(s);
      if k == |s| then [s] else [s[..k]] + Lines(s[k + 1..])
  }

  lemma NewlineAfter(a: string, b: string)
    requires '\n' !in a
    ensures NextNewline(a + "\n" + b) == |a|
  {
    var s := a + "\n" + b;
    var k := NextNewline(s);
    assert s[|a|] == '\n';
    assert forall j :: 0 <= j < |a| ==> s[j] == a[j];
  }

  /**
    Framing round trip: when the renderer never prints a newline (json-c
    escapes newlines inside strings), splitting the socket stream at newlines
    gives back exactly one line per document, in transmission order.
   */
  lemma {:induction false} LinesOfWire(docs: seq<Json>, render: Json -> string)
    requires forall i :: 0 <= i < |docs| ==> '\n' !in render(docs[i])
    ensures |Lines(Wire(docs, render))| == |docs|
    ensures forall i :: 0 <= i < |docs| ==> Lines(Wire(docs, render))[i] == render(docs[i])
  {
    if docs != [] {
      var a, b := render(docs[0]), Wire(docs[1..], render);
      assert Wire(docs, render) == a + "\n" + b;
      NewlineAfter(a, b);
      var s := a + "\n" + b;
      assert s[..|a|] == a;
      assert s[|a| + 1..] == b;
      assert Lines(s) == [a] + Lines(b);
      LinesOfWire(docs[1..], render);
      forall i | 0 <= i < |docs|
        ensures Lines(s)[i] == render(docs[i])
      {
        if i > 0 {
          assert Lines(s)[i] == Lines(b)[i - 1];
          assert docs[1..][i - 1] == docs[i];
        }
      }
    }
  }
}
