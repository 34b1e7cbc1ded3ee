/**
 * The display helpers of the ModelStudio memory demo
 * (examples/modelstudio_memory/memory_demo.py): shortening a text for
 * display, the text shown for a memory exception, the page count of a list
 * reply, and the ids of the memory nodes a reply returned.
 */
module MemoryDemo {
  import opened Wrappers
  import opened Strings
  import opened Json
  import opened MemoryErrors
  import opened MemorySchemas

  /** `text[:stop]`: a negative stop counts from the end; the result is clamped to the text. */
  function PrefixSlice(text: string, stop: int): (r: string)
    ensures |r| <= |text| && r == text[..|r|]
    ensures 0 <= stop ==> |r| == if stop <= |text| then stop else |text|
    ensures stop < 0 ==> |r| == if |text| + stop < 0 then 0 else |text| + stop
  {
    var n := if stop < 0 then stop + |text| else stop;
    var m := if n < 0 then 0 else if n > |text| then |text| else n;
    text[..m]
  }

  /** `truncate`: `None` shows as nothing, a short text as itself, a long one cut and ended by "...". */
  function Truncate(text: Option<string>, length: int := 120): (r: string)
    ensures text.None? ==> r == ""
    ensures text.Some? && |text.value| <= length ==> r == text.value
    ensures text.Some? && |text.value| > length ==> EndsWith(r, "...") && StartsWith(text.value, r[..|r| - 3])
  {
    if text.None? then ""
    else if |text.value| <= length then text.value
    else
      var r := PrefixSlice(text.value, length - 3) + "...";
      assert r[..|r| - 3] == PrefixSlice(text.value, length - 3);
      assert r[|r| - 3..] == "...";
      r
  }

  /** With a length of at least 3, the shown text never exceeds it, and a cut text fills it exactly. */
  lemma TruncateBound(text: Option<string>, length: int)
    requires length >= 3
    ensures |Truncate(text, length)| <= length
    ensures text.Some? && |text.value| > length ==>
              Truncate(text, length) == text.value[..length - 3] + "..." && |Truncate(text, length)| == length
  {
    if text.Some? && |text.value| > length {
      var p := PrefixSlice(text.value, length - 3);
      assert |p| == length - 3;
      assert p == text.value[..length - 3];
    }
  }

  /** Below 3 the stop is negative and the cut counts from the end: the result is longer than `length`. */
  lemma TruncateShortLength()
    ensures Truncate(Some("abcde"), 2) == "abcd..."
    ensures |Truncate(Some("abcde"), 2)| > 2
  {
    var p := PrefixSlice("abcde", -1);
    assert |p| == 4;
    assert p == "abcde"[..4];
    assert "abcde"[..4] == "abcd";
  }

  /** Python's `a // b`, the floor of the quotient, for `b != 0`. */
  function FloorDiv(a: int, b: int): (q: int)
    requires b != 0
    ensures b > 0 ==> q * b <= a < q * b + b
    ensures b < 0 ==> q * b >= a > q * b + b
  {
    if b > 0 then a / b else (-a) / (-b)
  }

  /** The page count of a list reply: `(total + page_size - 1) // page_size`, or 1 without a page size. */
  function TotalPages(total: int, pageSize: int): (pages: int)
    ensures pageSize == 0 ==> pages == 1
    ensures pageSize > 0 && total >= 0 ==> (pages - 1) * pageSize < total <= pages * pageSize
  {
    if pageSize != 0 then
      var q := FloorDiv(total + pageSize - 1, pageSize);
      assert pageSize > 0 ==> (q - 1) * pageSize == q * pageSize - pageSize;
      q
    else 1
  }

  lemma MulMonotone(a: int, b: int, c: int)
    requires a <= b && c > 0
    ensures a * c <= b * c
  {
    assert b * c - a * c == (b - a) * c;
  }

  /** Pages are the ceiling of the quotient: at least one page for a non-empty list, and no page too many. */
  lemma TotalPagesCeiling(total: int, pageSize: int)
    requires pageSize > 0 && total > 0
    ensures TotalPages(total, pageSize) >= 1
    ensures total % pageSize == 0 ==> TotalPages(total, pageSize) == total / pageSize
  {
    var pages := TotalPages(total, pageSize);
    assert (pages - 1) * pageSize < total <= pages * pageSize;
    if pages < 1 {
      MulMonotone(pages, 0, pageSize);
    }
    if total % pageSize == 0 {
      var k := total / pageSize;
      assert k * pageSize == total;
      if pages > k {
        MulMonotone(k, pages - 1, pageSize);
      } else if pages < k {
        MulMonotone(pages, k - 1, pageSize);
      }
    }
  }

  /** The lines `format_api_error` joins: the message part of `str(e)`, then each truthy field. */
  function ErrorLines(e: MemoryError): (r: seq<string>)
    ensures r != [] && r[0] == "Error: " + BeforeFirst(ErrorText(e), " | ")
    ensures |r| <= 4
  {
    ["Error: " + BeforeFirst(ErrorText(e), " | ")]
      + Part(JTruthy(e.errorCode), "Error Code: " + PyStr(e.errorCode))
      + Part(TruthyInt(e.statusCode), "HTTP Status: " + IntToString(e.statusCode.GetOr(0)))
      + Part(JTruthy(e.requestId), "Request ID: " + PyStr(e.requestId))
  }

  const LineSeparator := "\n          "

  /** `format_api_error(e)`. */
  function FormatApiError(e: MemoryError): string
  {
    Join(ErrorLines(e), LineSeparator)
  }

  /** `format_api_error`, appending to the list of lines. */
  method FormatApiErrorText(e: MemoryError) returns (s: string)
    ensures s == FormatApiError(e)
  {
    var errorMessage := BeforeFirst(ErrorText(e), " | ");
    var parts := ["Error: " + errorMessage];
    if JTruthy(e.errorCode) {
      parts := parts + ["Error Code: " + PyStr(e.errorCode)];
    }
    if TruthyInt(e.statusCode) {
      parts := parts + ["HTTP Status: " + IntToString(e.statusCode.value)];
    }
    assert parts == ["Error: " + errorMessage]
      + Part(JTruthy(e.errorCode), "Error Code: " + PyStr(e.errorCode))
      + Part(TruthyInt(e.statusCode), "HTTP Status: " + IntToString(e.statusCode.GetOr(0)));
    if JTruthy(e.requestId) {
      parts := parts + ["Request ID: " + PyStr(e.requestId)];
    }
    assert parts == ErrorLines(e);
    s := Join(parts, LineSeparator);
  }

  /** For a message without `|`, the first line is the message alone: the fields `str(e)` adds are not repeated. */
  lemma FormatHeadline(e: MemoryError)
    requires !HasChar(e.message, '|')
    ensures ErrorLines(e)[0] == "Error: " + e.message
    ensures StartsWith(FormatApiError(e), "Error: " + e.message)
  {
    MessageBeforeSeparator(e);
    JoinHead(ErrorLines(e), LineSeparator);
  }

  /** A message that itself holds " | " is cut at it: only its first part is shown. */
  lemma FormatCutsMessage(e: MemoryError, a: string, b: string)
    requires e.message == a + " | " + b && !HasChar(a, '|')
    ensures ErrorLines(e)[0] == "Error: " + a
  {
    ErrorTextHead(e);
    var t := ErrorText(e);
    var rest := t[|e.message|..];
    assert t == e.message + rest;
    assert t == a + " | " + (b + rest);
    BeforeFirstBar(a, b + rest);
  }

  /** A plain error with no field set is shown as its message. */
  lemma FormatPlainError(e: MemoryError)
    requires !JTruthy(e.errorCode) && !TruthyInt(e.statusCode) && !JTruthy(e.requestId) && !HasChar(e.message, '|')
    ensures FormatApiError(e) == "Error: " + e.message
  {
    MessageBeforeSeparator(e);
    assert ErrorLines(e) == ["Error: " + e.message];
  }

  /** `[n.memory_node_id for n in nodes if n.memory_node_id]`: the ids that are set and not empty, in order. */
  function NodeIds(nodes: seq<MemoryNode>): (r: seq<string>)
    ensures |r| <= |nodes|
    ensures forall k :: 0 <= k < |r| ==> r[k] != ""
  {
    if nodes == [] then []
    else NodeIds(nodes[..|nodes| - 1])
         + (if Truthy(nodes[|nodes| - 1].memoryNodeId) then [nodes[|nodes| - 1].memoryNodeId.value] else [])
  }

  /** The ids of two lists of nodes are the ids of the first followed by those of the second. */
  lemma {:induction false} NodeIdsAppend(a: seq<MemoryNode>, b: seq<MemoryNode>)
    ensures NodeIds(a + b) == NodeIds(a) + NodeIds(b)
    decreases |b|
  {
    if b == [] {
      assert a + b == a;
    } else {
      var c := b[..|b| - 1];
      assert (a + b)[..|a + b| - 1] == a + c;
      NodeIdsAppend(a, c);
    }
  }

  /** An id is listed exactly when some node carries it. */
  lemma {:induction false} NodeIdsMembership(nodes: seq<MemoryNode>, id: string)
    ensures id in NodeIds(nodes) <==> id != "" && exists i :: 0 <= i < |nodes| && nodes[i].memoryNodeId == Some(id)
    decreases |nodes|
  {
    if nodes != [] {
      var init := nodes[..|nodes| - 1];
      NodeIdsMembership(init, id);
      if exists i :: 0 <= i < |init| && init[i].memoryNodeId == Some(id) {
        var i :| 0 <= i < |init| && init[i].memoryNodeId == Some(id);
        assert nodes[i] == init[i];
      }
      if exists i :: 0 <= i < |nodes| && nodes[i].memoryNodeId == Some(id) {
        var i :| 0 <= i < |nodes| && nodes[i].memoryNodeId == Some(id);
        if i < |init| { assert init[i] == nodes[i]; }
      }
    }
  }

  /** `[nid for nid in ids if nid]`. */
  function NonEmptyIds(ids: seq<string>): (r: seq<string>)
  {
    if ids == [] then [] else NonEmptyIds(ids[..|ids| - 1]) + (if ids[|ids| - 1] != "" then [ids[|ids| - 1]] else [])
  }

  /** `node.memory_node_id or ""` for each node. */
  function IdsOrEmpty(nodes: seq<MemoryNode>): (r: seq<string>)
    ensures |r| == |nodes|
    ensures forall k :: 0 <= k < |nodes| ==> r[k] == nodes[k].memoryNodeId.GetOr("")
  {
    if nodes == [] then [] else IdsOrEmpty(nodes[..|nodes| - 1]) + [nodes[|nodes| - 1].memoryNodeId.GetOr("")]
  }

  /** Replacing a missing id by "" and then dropping the empty ones keeps the same ids as filtering directly. */
  lemma {:induction false} NonEmptyIdsOfNodes(nodes: seq<MemoryNode>)
    ensures NonEmptyIds(IdsOrEmpty(nodes)) == NodeIds(nodes)
    decreases |nodes|
  {
    if nodes != [] {
      var ids := IdsOrEmpty(nodes);
      assert ids[..|ids| - 1] == IdsOrEmpty(nodes[..|nodes| - 1]);
      NonEmptyIdsOfNodes(nodes[..|nodes| - 1]);
    }
  }

  /** The ids `step_list_memory` returns: collected per node with "" for a missing id, then the empty ones dropped. */
  method ListedIds(nodes: seq<MemoryNode>) returns (ids: seq<string>)
    ensures ids == NodeIds(nodes)
  {
    var existing := [];
    var i := 0;
    while i < |nodes|
      invariant 0 <= i <= |nodes|
      invariant existing == IdsOrEmpty(nodes[..i])
    {
      assert nodes[..i + 1][..i] == nodes[..i];
      existing := existing + [nodes[i].memoryNodeId.GetOr("")];
      i := i + 1;
    }
    assert nodes[..|nodes|] == nodes;
    ids := [];
    var j := 0;
    while j < |existing|
      invariant 0 <= j <= |existing|
      invariant ids == NonEmptyIds(existing[..j])
    {
      assert existing[..j + 1][..j] == existing[..j];
      if existing[j] != "" {
        ids := ids + [existing[j]];
      }
      j := j + 1;
    }
    assert existing[..|existing|] == existing;
    NonEmptyIdsOfNodes(nodes);
  }
}
