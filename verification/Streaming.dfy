/**
 * Assembly of one assistant message from a stream of parts: `generate` of
 * packages/kosong/src/generate.ts and `mergeInPlace` of packages/kosong/src/message.ts.
 */
module Streaming {
  import opened Options
  import opened Sequences

  datatype Index = Number(n: int) | Name(s: string)

  datatype MediaKind = Image | Audio | Video

  datatype Part =
    | TextPart(text: string)
    | ThinkPart(think: string, encrypted: Option<string>)
    | MediaPart(kind: MediaKind, url: string, mediaId: Option<string>)
    | ToolCall(id: string, name: string, arguments: Option<string>, extras: map<string, string>,
               streamIndex: Option<Index>)
    | ToolCallPart(argumentsPart: Option<string>, index: Option<Index>)

  // A tool call as the message keeps it, without its routing index.
  datatype StoredCall = StoredCall(id: string, name: string, arguments: Option<string>, extras: map<string, string>)

  predicate IsContentPart(part: Part) {
    part.TextPart? || part.ThinkPart? || part.MediaPart?
  }

  // ---- merging two consecutive parts ----

  function AppendArguments(arguments: Option<string>, more: Option<string>): Option<string> {
    if more.None? then arguments
    else if arguments.None? then more
    else Some(arguments.value + more.value)
  }

  // The merged part, or None when the two do not merge.
  function Merge(target: Part, source: Part): Option<Part> {
    if target.TextPart? && source.TextPart? then
      Some(TextPart(target.text + source.text))
    else if target.ThinkPart? && source.ThinkPart? && target.encrypted.None? then
      Some(ThinkPart(target.think + source.think, source.encrypted))
    else if target.ToolCall? && source.ToolCallPart? then
      Some(target.(arguments := AppendArguments(target.arguments, source.argumentsPart)))
    else
      None
  }

  // The object that accumulates a part.
  class Accumulator {
    var part: Part

    constructor (part: Part)
      ensures this.part == part
    {
      this.part := part;
    }

    method MergeInPlace(source: Part) returns (merged: bool)
      modifies this
      ensures merged <==> Merge(old(part), source).Some?
      ensures part == if merged then Merge(old(part), source).value else old(part)
    {
      if part.TextPart? && source.TextPart? {
        part := part.(text := part.text + source.text);
        return true;
      }
      if part.ThinkPart? && source.ThinkPart? {
        if part.encrypted.Some? {
          return false;
        }
        part := part.(think := part.think + source.think);
        if source.encrypted.Some? {
          part := part.(encrypted := source.encrypted);
        }
        return true;
      }
      if part.ToolCall? && source.ToolCallPart? {
        if source.argumentsPart.Some? {
          part := part.(arguments := if part.arguments.None? then source.argumentsPart
                                     else Some(part.arguments.value + source.argumentsPart.value));
        }
        return true;
      }
      return false;
    }
  }

  // ---- one step of the loop ----

  datatype Assembly = Assembly(
    content: seq<Part>, toolCalls: seq<StoredCall>, indexMap: map<Index, nat>, pending: Option<Part>)

  const EMPTY := Assembly([], [], map[], None)

  function Store(call: Part): StoredCall
    requires call.ToolCall?
  {
    StoredCall(call.id, call.name, call.arguments, call.extras)
  }

  // Orphaned deltas are dropped.
  function FlushPart(st: Assembly, part: Part): Assembly {
    if IsContentPart(part) then st.(content := st.content + [part])
    else if part.ToolCall? then
      st.(toolCalls := st.toolCalls + [Store(part)],
          indexMap := if part.streamIndex.Some? then st.indexMap[part.streamIndex.value := |st.toolCalls|]
                      else st.indexMap)
    else st
  }

  predicate IsPendingToolCallAtIndex(pending: Option<Part>, index: Index) {
    pending.Some? && pending.value.ToolCall? && pending.value.streamIndex == Some(index)
  }

  // A delta for a call that is no longer pending goes straight to the stored call.
  predicate IsRouted(st: Assembly, part: Part) {
    && part.ToolCallPart? && part.index.Some?
    && !IsPendingToolCallAtIndex(st.pending, part.index.value)
    && part.index.value in st.indexMap
  }

  function AppendToCall(st: Assembly, k: nat, more: Option<string>): Assembly {
    if k < |st.toolCalls| then
      var call := st.toolCalls[k];
      st.(toolCalls := st.toolCalls[k := call.(arguments := AppendArguments(call.arguments, more))])
    else st
  }

  function Accept(st: Assembly, part: Part): Assembly {
    if IsRouted(st, part) then AppendToCall(st, st.indexMap[part.index.value], part.argumentsPart)
    else match st.pending
      case None => st.(pending := Some(part))
      case Some(target) =>
        match Merge(target, part)
        case Some(merged) => st.(pending := Some(merged))
        case None => FlushPart(st, target).(pending := Some(part))
  }

  function AcceptAll(st: Assembly, parts: seq<Part>): Assembly {
    if parts == [] then st else Accept(AcceptAll(st, parts[..|parts| - 1]), parts[|parts| - 1])
  }

  function Finish(st: Assembly): Assembly {
    if st.pending.None? then st else FlushPart(st, st.pending.value).(pending := None)
  }

  function Assemble(stream: seq<Part>): Assembly {
    Finish(AcceptAll(EMPTY, stream))
  }

  // ---- the verdict on the assembled message ----

  datatype Outcome =
    | Message(content: seq<Part>, toolCalls: seq<StoredCall>)
    | EmptyResponse
    | ThinkingOnly

  // What String.prototype.trim removes.
  predicate IsSpace(c: char) {
    var u := c as int;
    || 9 <= u <= 13 || u == 0x20 || u == 0xA0 || u == 0x1680 || 0x2000 <= u <= 0x200A
    || u == 0x2028 || u == 0x2029 || u == 0x202F || u == 0x205F || u == 0x3000 || u == 0xFEFF
  }

  predicate IsBlank(s: string) {
    forall i :: 0 <= i < |s| ==> IsSpace(s[i])
  }

  predicate IsRealText(part: Part) {
    part.TextPart? && !IsBlank(part.text)
  }

  predicate HasThink(content: seq<Part>) {
    exists i :: 0 <= i < |content| && content[i].ThinkPart?
  }

  predicate HasText(content: seq<Part>) {
    exists i :: 0 <= i < |content| && IsRealText(content[i])
  }

  function Judge(st: Assembly): Outcome {
    if st.content == [] && st.toolCalls == [] then EmptyResponse
    else if HasThink(st.content) && !HasText(st.content) && st.toolCalls == [] then ThinkingOnly
    else Message(st.content, st.toolCalls)
  }

  // ---- routing, specified on the whole stream ----

  predicate IsHeaderFor(part: Part, index: Index) {
    part.ToolCall? && part.streamIndex == Some(index)
  }

  // The last header with this index among the first n parts.
  function LatestHeader(parts: seq<Part>, index: Index, n: nat): (h: Option<nat>)
    requires n <= |parts|
    ensures h.Some? ==> h.value < n && IsHeaderFor(parts[h.value], index)
  {
    if n == 0 then None
    else if IsHeaderFor(parts[n - 1], index) then Some(n - 1)
    else LatestHeader(parts, index, n - 1)
  }

  // The header still being assembled after n parts: only argument deltas have followed it.
  function OpenHeader(parts: seq<Part>, n: nat): (h: Option<nat>)
    requires n <= |parts|
    ensures h.Some? ==> h.value < n && parts[h.value].ToolCall?
  {
    if n == 0 then None
    else if parts[n - 1].ToolCall? then Some(n - 1)
    else if parts[n - 1].ToolCallPart? then OpenHeader(parts, n - 1)
    else None
  }

  // The header a delta belongs to: the latest one with its index, or, without an index, the open one.
  function Owner(parts: seq<Part>, k: nat): Option<nat>
    requires k < |parts| && parts[k].ToolCallPart?
  {
    match parts[k].index
    case Some(index) => LatestHeader(parts, index, k)
    case None => OpenHeader(parts, k)
  }

  // Every indexed delta follows a header with that index.
  ghost predicate Announced(parts: seq<Part>) {
    forall k :: 0 <= k < |parts| && parts[k].ToolCallPart? && parts[k].index.Some? ==> Owner(parts, k).Some?
  }

  // The arguments of header j among the first n parts: its own, then its deltas in stream order.
  function ArgumentsOf(parts: seq<Part>, j: nat, n: nat): Option<string>
    requires j < n <= |parts| && parts[j].ToolCall?
    decreases n
  {
    if n == j + 1 then parts[j].arguments
    else if parts[n - 1].ToolCallPart? && Owner(parts, n - 1) == Some(j)
    then AppendArguments(ArgumentsOf(parts, j, n - 1), parts[n - 1].argumentsPart)
    else ArgumentsOf(parts, j, n - 1)
  }

  // Positions of the headers among the first n parts.
  function Headers(parts: seq<Part>, n: nat): (hs: seq<nat>)
    requires n <= |parts|
    ensures forall r :: 0 <= r < |hs| ==> hs[r] < n && parts[hs[r]].ToolCall?
    ensures forall q, r :: 0 <= q < r < |hs| ==> hs[q] < hs[r]
  {
    if n == 0 then []
    else if parts[n - 1].ToolCall? then Headers(parts, n - 1) + [n - 1]
    else Headers(parts, n - 1)
  }

  function CallAt(parts: seq<Part>, j: nat, n: nat): StoredCall
    requires j < n <= |parts| && parts[j].ToolCall?
  {
    StoredCall(parts[j].id, parts[j].name, ArgumentsOf(parts, j, n), parts[j].extras)
  }

  function Calls(parts: seq<Part>): seq<StoredCall> {
    var hs := Headers(parts, |parts|);
    seq(|hs|, r requires 0 <= r < |hs| => CallAt(parts, hs[r], |parts|))
  }

  // ---- the loop state after n parts ----

  ghost predicate CallsInv(parts: seq<Part>, n: nat, st: Assembly)
    requires n <= |parts|
  {
    var hs := Headers(parts, n);
    var open := OpenHeader(parts, n);
    && |hs| == |st.toolCalls| + (if open.Some? then 1 else 0)
    && (open.Some? ==>
        && hs[|hs| - 1] == open.value
        && st.pending == Some(parts[open.value].(arguments := ArgumentsOf(parts, open.value, n))))
    && (open.None? ==> st.pending.None? || !st.pending.value.ToolCall?)
    && (forall r :: 0 <= r < |st.toolCalls| ==> st.toolCalls[r] == CallAt(parts, hs[r], n))
  }

  // The map leads to the latest header of an index, except that of the open header.
  ghost predicate MapInv(parts: seq<Part>, n: nat, st: Assembly, index: Index)
    requires n <= |parts|
  {
    var hs := Headers(parts, n);
    var open := OpenHeader(parts, n);
    var latest := LatestHeader(parts, index, n);
    if open.Some? && parts[open.value].streamIndex == Some(index) then latest == open
    else
      && (index in st.indexMap <==> latest.Some?)
      && (index in st.indexMap ==>
          st.indexMap[index] < |st.toolCalls| <= |hs| && Some(hs[st.indexMap[index]]) == latest)
  }

  ghost predicate Inv(parts: seq<Part>, n: nat, st: Assembly)
    requires n <= |parts|
  {
    CallsInv(parts, n, st) && forall index :: MapInv(parts, n, st, index)
  }

  // A delta leaves the headers alone. Routed, it extends the stored call of its owner.
  lemma RoutedStep(parts: seq<Part>, n: nat, m: nat, st: Assembly)
    requires m == n + 1 <= |parts| && parts[n].ToolCallPart? && Inv(parts, n, st) && IsRouted(st, parts[n])
    ensures Inv(parts, m, Accept(st, parts[n]))
  {
    var next := Accept(st, parts[n]);
    var k := st.indexMap[parts[n].index.value];
    var hs := Headers(parts, n);
    assert Headers(parts, m) == hs && OpenHeader(parts, m) == OpenHeader(parts, n);
    assert MapInv(parts, n, st, parts[n].index.value);
    assert Owner(parts, n) == Some(hs[k]);
    forall r | 0 <= r < |next.toolCalls| ensures next.toolCalls[r] == CallAt(parts, hs[r], m) {
      assert st.toolCalls[r] == CallAt(parts, hs[r], n);
      assert r != k ==> hs[r] != hs[k];
    }
    forall index ensures MapInv(parts, m, next, index) {
      assert MapInv(parts, n, st, index);
    }
  }

  // Otherwise it extends the open call, or is dropped when there is none.
  lemma UnroutedStep(parts: seq<Part>, n: nat, m: nat, st: Assembly)
    requires m == n + 1 <= |parts| && parts[n].ToolCallPart? && Inv(parts, n, st) && !IsRouted(st, parts[n])
    requires parts[n].index.Some? ==> Owner(parts, n).Some?
    ensures Inv(parts, m, Accept(st, parts[n]))
  {
    var next := Accept(st, parts[n]);
    var hs := Headers(parts, n);
    assert Headers(parts, m) == hs && OpenHeader(parts, m) == OpenHeader(parts, n);
    if parts[n].index.Some? {
      assert MapInv(parts, n, st, parts[n].index.value);
    }
    assert Owner(parts, n) == OpenHeader(parts, n);
    assert next.toolCalls == st.toolCalls && next.indexMap == st.indexMap;
    forall r | 0 <= r < |next.toolCalls| ensures next.toolCalls[r] == CallAt(parts, hs[r], m) {
      assert st.toolCalls[r] == CallAt(parts, hs[r], n);
    }
    forall index ensures MapInv(parts, m, next, index) {
      assert MapInv(parts, n, st, index);
    }
  }

  // What flushing the pending part does to the calls: the open one, if any, is now stored.
  ghost predicate Stored(parts: seq<Part>, n: nat, st: Assembly)
    requires n <= |parts|
  {
    var hs := Headers(parts, n);
    && |hs| == |st.toolCalls|
    && (forall r :: 0 <= r < |hs| ==> st.toolCalls[r] == CallAt(parts, hs[r], n))
    && (forall index :: StoredAt(parts, n, st, index))
  }

  ghost predicate StoredAt(parts: seq<Part>, n: nat, st: Assembly, index: Index)
    requires n <= |parts|
  {
    var hs := Headers(parts, n);
    var latest := LatestHeader(parts, index, n);
    && (index in st.indexMap <==> latest.Some?)
    && (index in st.indexMap ==> st.indexMap[index] < |hs| && Some(hs[st.indexMap[index]]) == latest)
  }

  lemma FlushStores(parts: seq<Part>, n: nat, st: Assembly)
    requires n <= |parts| && Inv(parts, n, st)
    ensures Stored(parts, n, if st.pending.Some? then FlushPart(st, st.pending.value) else st)
  {
    var next := if st.pending.Some? then FlushPart(st, st.pending.value) else st;
    forall index ensures StoredAt(parts, n, next, index) {
      assert MapInv(parts, n, st, index);
    }
  }

  // Any other part closes the open call, if there is one.
  lemma CloseStep(parts: seq<Part>, n: nat, m: nat, st: Assembly, flushed: Assembly)
    requires m == n + 1 <= |parts| && !parts[n].ToolCallPart? && Stored(parts, n, flushed)
    requires st.toolCalls == flushed.toolCalls && st.indexMap == flushed.indexMap && st.pending.Some?
    requires parts[n].ToolCall? ==> st.pending == Some(parts[n])
    requires !parts[n].ToolCall? ==> !st.pending.value.ToolCall?
    ensures Inv(parts, m, st)
  {
    assert CallsInv(parts, m, st);
    forall index ensures MapInv(parts, m, st, index) {
      assert StoredAt(parts, n, flushed, index);
    }
  }

  lemma {:induction false} AcceptAllInv(parts: seq<Part>, n: nat)
    requires n <= |parts| && Announced(parts)
    ensures Inv(parts, n, AcceptAll(EMPTY, parts[..n]))
  {
    if n > 0 {
      AcceptAllInv(parts, n - 1);
      assert parts[..n][..n - 1] == parts[..n - 1];
      var st := AcceptAll(EMPTY, parts[..n - 1]);
      if parts[n - 1].ToolCallPart? {
        if IsRouted(st, parts[n - 1]) {
          RoutedStep(parts, n - 1, n, st);
        } else {
          UnroutedStep(parts, n - 1, n, st);
        }
      } else {
        FlushStores(parts, n - 1, st);
        var flushed := if st.pending.Some? then FlushPart(st, st.pending.value) else st;
        CloseStep(parts, n - 1, n, Accept(st, parts[n - 1]), flushed);
      }
    }
  }

  // The stored calls are the headers in order, and the arguments of each are its header's followed,
  // in stream order, by exactly the deltas that belong to it.
  lemma ToolCallRoutingIsExact(stream: seq<Part>)
    requires Announced(stream)
    ensures Assemble(stream).toolCalls == Calls(stream)
  {
    AcceptAllInv(stream, |stream|);
    assert stream[..|stream|] == stream;
    FlushStores(stream, |stream|, AcceptAll(EMPTY, stream));
  }

  function PieceOf(text: Option<string>): seq<string> {
    if text.Some? then [text.value] else []
  }

  // The texts that make up the arguments of header j, in stream order.
  function ArgumentPieces(parts: seq<Part>, j: nat, n: nat): seq<string>
    requires j < n <= |parts| && parts[j].ToolCall?
    decreases n
  {
    if n == j + 1 then PieceOf(parts[j].arguments)
    else if parts[n - 1].ToolCallPart? && Owner(parts, n - 1) == Some(j)
    then ArgumentPieces(parts, j, n - 1) + PieceOf(parts[n - 1].argumentsPart)
    else ArgumentPieces(parts, j, n - 1)
  }

  function Joined(pieces: seq<string>): string {
    if pieces == [] then "" else Joined(pieces[..|pieces| - 1]) + pieces[|pieces| - 1]
  }

  lemma JoinedOneMore(pieces: seq<string>, piece: string)
    ensures Joined(pieces + [piece]) == Joined(pieces) + piece
    ensures pieces == [] ==> pieces + [piece] == [piece] && Joined([piece]) == piece
  {
    assert (pieces + [piece])[..|pieces|] == pieces;
    assert "" + piece == piece;
  }

  lemma {:induction false} ArgumentsAreJoined(parts: seq<Part>, j: nat, n: nat)
    requires j < n <= |parts| && parts[j].ToolCall?
    ensures var pieces := ArgumentPieces(parts, j, n);
      ArgumentsOf(parts, j, n) == if pieces == [] then None else Some(Joined(pieces))
    decreases n
  {
    if n == j + 1 {
      if parts[j].arguments.Some? {
        JoinedOneMore([], parts[j].arguments.value);
      }
    } else {
      ArgumentsAreJoined(parts, j, n - 1);
      var pieces := ArgumentPieces(parts, j, n - 1);
      assert pieces + [] == pieces;
      if parts[n - 1].ToolCallPart? && parts[n - 1].argumentsPart.Some? {
        JoinedOneMore(pieces, parts[n - 1].argumentsPart.value);
      }
    }
  }

  // The call has the id, name and extras of header j, and for arguments its texts one after another, or
  // none if there are none.
  ghost predicate Carries(stream: seq<Part>, call: StoredCall, j: nat)
    requires j < |stream| && stream[j].ToolCall?
  {
    var pieces := ArgumentPieces(stream, j, |stream|);
    && call.id == stream[j].id && call.name == stream[j].name && call.extras == stream[j].extras
    && call.arguments == (if pieces == [] then None else Some(Joined(pieces)))
  }

  // One call for each header of the stream, in order.
  ghost predicate CarriesAll(stream: seq<Part>, toolCalls: seq<StoredCall>) {
    var hs := Headers(stream, |stream|);
    |toolCalls| == |hs| && forall r :: 0 <= r < |hs| ==> Carries(stream, toolCalls[r], hs[r])
  }

  // Header by header, field by field: what a message keeps of the tool calls in its stream.
  lemma StoredCallsCarryTheirHeaders(stream: seq<Part>)
    requires Announced(stream)
    ensures CarriesAll(stream, Assemble(stream).toolCalls)
  {
    ToolCallRoutingIsExact(stream);
    var hs := Headers(stream, |stream|);
    forall r | 0 <= r < |hs| ensures Carries(stream, Assemble(stream).toolCalls[r], hs[r]) {
      ArgumentsAreJoined(stream, hs[r], |stream|);
    }
  }

  // ---- the loop itself ----

  method Generate(stream: seq<Part>) returns (outcome: Outcome)
    ensures outcome == Judge(Assemble(stream))
    ensures outcome.Message? && Announced(stream) ==> CarriesAll(stream, outcome.toolCalls)
  {
    var content, toolCalls, indexMap := [], [], map[];
    var pendingPart: Accumulator? := null;
    for k := 0 to |stream|
      invariant pendingPart != null ==> fresh(pendingPart)
      invariant Assembly(content, toolCalls, indexMap, if pendingPart == null then None else Some(pendingPart.part))
                == AcceptAll(EMPTY, stream[..k])
    {
      assert stream[..k + 1][..k] == stream[..k];
      ghost var before := AcceptAll(EMPTY, stream[..k]);
      var part := stream[k];
      var routed := false;
      if part.ToolCallPart? && part.index.Some? {
        var atPending := pendingPart != null && pendingPart.part.ToolCall? &&
          pendingPart.part.streamIndex == part.index;
        if !atPending && part.index.value in indexMap {
          routed := true;
          var arrayIdx := indexMap[part.index.value];
          if arrayIdx < |toolCalls| && part.argumentsPart.Some? {
            var target := toolCalls[arrayIdx];
            toolCalls := toolCalls[arrayIdx := target.(
              arguments := if target.arguments.None? then part.argumentsPart
                           else Some(target.arguments.value + part.argumentsPart.value))];
          }
        }
      }
      assert routed <==> IsRouted(before, part);
      if !routed {
        if pendingPart == null {
          pendingPart := new Accumulator(part);
        } else {
          var merged := pendingPart.MergeInPlace(part);
          if !merged {
            content, toolCalls, indexMap := Flush(content, toolCalls, indexMap, pendingPart.part);
            pendingPart := new Accumulator(part);
          }
        }
      }
    }
    assert stream[..|stream|] == stream;
    if pendingPart != null {
      content, toolCalls, indexMap := Flush(content, toolCalls, indexMap, pendingPart.part);
    }
    if Announced(stream) {
      StoredCallsCarryTheirHeaders(stream);
    }
    if |content| == 0 && |toolCalls| == 0 {
      return EmptyResponse;
    }
    if HasThink(content) && !HasText(content) && |toolCalls| == 0 {
      return ThinkingOnly;
    }
    return Message(content, toolCalls);
  }

  method Flush(content: seq<Part>, toolCalls: seq<StoredCall>, indexMap: map<Index, nat>, part: Part)
    returns (content': seq<Part>, toolCalls': seq<StoredCall>, indexMap': map<Index, nat>)
    ensures Assembly(content', toolCalls', indexMap', None) ==
      FlushPart(Assembly(content, toolCalls, indexMap, None), part)
  {
    content', toolCalls', indexMap' := content, toolCalls, indexMap;
    if IsContentPart(part) {
      content' := content + [part];
    } else if part.ToolCall? {
      var ordinal := |toolCalls|;
      toolCalls' := toolCalls + [StoredCall(part.id, part.name, part.arguments, part.extras)];
      if part.streamIndex.Some? {
        indexMap' := indexMap[part.streamIndex.value := ordinal];
      }
    }
  }

  // ---- content, specified on the whole stream ----

  predicate IsIndexedDelta(part: Part) {
    part.ToolCallPart? && part.index.Some?
  }

  function WithoutIndexedDeltas(parts: seq<Part>): seq<Part> {
    if parts == [] then []
    else
      var last := parts[|parts| - 1];
      WithoutIndexedDeltas(parts[..|parts| - 1]) + (if IsIndexedDelta(last) then [] else [last])
  }

  // Whether two neighbours of the stream belong to one content part.
  predicate Joins(p: Part, q: Part) {
    (p.TextPart? && q.TextPart?) || (p.ThinkPart? && q.ThinkPart? && p.encrypted.None?)
  }

  function Join(p: Part, q: Part): Part {
    if p.TextPart? && q.TextPart? then TextPart(p.text + q.text)
    else if p.ThinkPart? && q.ThinkPart? then ThinkPart(p.think + q.think, q.encrypted)
    else q
  }

  function LastOf(parts: seq<Part>): Option<Part> {
    if parts == [] then None else Some(parts[|parts| - 1])
  }

  // One more part, after groups that end in the part `prev` belongs to.
  function Extend(groups: seq<Part>, prev: Option<Part>, q: Part): seq<Part>
    requires prev.Some? && IsContentPart(prev.value) ==> groups != []
  {
    if !IsContentPart(q) then groups
    else if prev.Some? && Joins(prev.value, q) then
      groups[..|groups| - 1] + [Join(groups[|groups| - 1], q)]
    else groups + [q]
  }

  // Content parts in order, each joined to its left neighbour when the two belong together.
  function GroupContent(parts: seq<Part>): (groups: seq<Part>)
    ensures parts != [] && IsContentPart(parts[|parts| - 1]) ==> groups != []
  {
    if parts == [] then []
    else
      var init := parts[..|parts| - 1];
      Extend(GroupContent(init), LastOf(init), parts[|parts| - 1])
  }

  predicate SameKind(p: Part, q: Part) {
    && IsContentPart(p) == IsContentPart(q) && p.TextPart? == q.TextPart? && p.ThinkPart? == q.ThinkPart?
    && (p.ThinkPart? && q.ThinkPart? ==> p.encrypted == q.encrypted)
  }

  // What is stored plus a pending content part are the groups, and the pending part is of the kind of the
  // last part that is not an indexed delta.
  ghost predicate GroupsInv(groups: seq<Part>, prev: Option<Part>, st: Assembly) {
    && groups == st.content +
       (if st.pending.Some? && IsContentPart(st.pending.value) then [st.pending.value] else [])
    && (if prev.None? then st.pending.None? else st.pending.Some? && SameKind(prev.value, st.pending.value))
  }

  ghost predicate ContentInv(kept: seq<Part>, st: Assembly) {
    GroupsInv(GroupContent(kept), LastOf(kept), st)
  }

  lemma GroupOneMore(kept: seq<Part>, part: Part)
    ensures GroupContent(kept + [part]) == Extend(GroupContent(kept), LastOf(kept), part)
    ensures LastOf(kept + [part]) == Some(part)
  {
    var more := kept + [part];
    assert more[..|more| - 1] == kept;
  }

  lemma ExtendJoined(groups: seq<Part>, prev: Part, st: Assembly, part: Part)
    requires GroupsInv(groups, Some(prev), st) && Joins(prev, part)
    ensures GroupsInv(Extend(groups, Some(prev), part), Some(part), Accept(st, part))
  {
    assert groups[..|groups| - 1] == st.content && groups[|groups| - 1] == st.pending.value;
  }

  lemma ExtendApart(groups: seq<Part>, prev: Part, st: Assembly, part: Part)
    requires GroupsInv(groups, Some(prev), st) && !Joins(prev, part) && !IsIndexedDelta(part)
    requires IsContentPart(prev)
    ensures GroupsInv(Extend(groups, Some(prev), part), Some(part), Accept(st, part))
  {
    assert FlushPart(st, st.pending.value).content == groups;
    assert groups + [] == groups;
  }

  lemma ExtendAfterCall(groups: seq<Part>, prev: Part, st: Assembly, part: Part)
    requires GroupsInv(groups, Some(prev), st) && !IsIndexedDelta(part) && !IsContentPart(prev)
    ensures GroupsInv(Extend(groups, Some(prev), part), Some(part), Accept(st, part))
  {
    assert st.content + [] == st.content;
  }

  lemma ExtendFirst(groups: seq<Part>, st: Assembly, part: Part)
    requires GroupsInv(groups, None, st) && !IsIndexedDelta(part)
    ensures GroupsInv(Extend(groups, None, part), Some(part), Accept(st, part))
  {
    assert st.content + [] == st.content;
  }

  lemma KeptStep(kept: seq<Part>, st: Assembly, part: Part)
    requires ContentInv(kept, st) && !IsIndexedDelta(part)
    ensures ContentInv(kept + [part], Accept(st, part))
  {
    var groups, prev := GroupContent(kept), LastOf(kept);
    GroupOneMore(kept, part);
    if prev.None? {
      ExtendFirst(groups, st, part);
    } else if !IsContentPart(prev.value) {
      ExtendAfterCall(groups, prev.value, st, part);
    } else if Joins(prev.value, part) {
      ExtendJoined(groups, prev.value, st, part);
    } else {
      ExtendApart(groups, prev.value, st, part);
    }
  }

  // An announced indexed delta reaches a stored call or the pending one, so content stays as it is.
  lemma IndexedDeltaStep(parts: seq<Part>, n: nat, kept: seq<Part>, st: Assembly)
    requires n < |parts| && IsIndexedDelta(parts[n]) && Owner(parts, n).Some? && Inv(parts, n, st)
    requires ContentInv(kept, st)
    ensures ContentInv(kept, Accept(st, parts[n]))
  {
    var index := parts[n].index.value;
    assert MapInv(parts, n, st, index);
    assert IsPendingToolCallAtIndex(st.pending, index) || IsRouted(st, parts[n]);
  }

  lemma {:induction false} AcceptAllContent(parts: seq<Part>, n: nat)
    requires n <= |parts| && Announced(parts)
    ensures ContentInv(WithoutIndexedDeltas(parts[..n]), AcceptAll(EMPTY, parts[..n]))
  {
    if n > 0 {
      AcceptAllContent(parts, n - 1);
      assert parts[..n][..n - 1] == parts[..n - 1];
      var kept := WithoutIndexedDeltas(parts[..n - 1]);
      var st := AcceptAll(EMPTY, parts[..n - 1]);
      if IsIndexedDelta(parts[n - 1]) {
        AcceptAllInv(parts, n - 1);
        IndexedDeltaStep(parts, n - 1, kept, st);
        assert WithoutIndexedDeltas(parts[..n]) == kept;
      } else {
        assert WithoutIndexedDeltas(parts[..n]) == kept + [parts[n - 1]];
        KeptStep(kept, st, parts[n - 1]);
      }
    }
  }

  // The stored content is the stream's content, joined exactly where neighbours belong together;
  // deltas routed by index do not come between neighbours.
  lemma ContentGroupingIsExact(stream: seq<Part>)
    requires Announced(stream)
    ensures Assemble(stream).content == GroupContent(WithoutIndexedDeltas(stream))
  {
    AcceptAllContent(stream, |stream|);
    assert stream[..|stream|] == stream;
  }

  // ---- conservation, for every stream ----

  datatype Atom = TextChar(c: char) | ThinkChar(c: char) | Signature(s: string) | Media(part: Part)

  function Atoms(part: Part): seq<Atom> {
    match part
    case TextPart(text) => seq(|text|, i requires 0 <= i < |text| => TextChar(text[i]))
    case ThinkPart(think, encrypted) =>
      seq(|think|, i requires 0 <= i < |think| => ThinkChar(think[i])) +
      (if encrypted.Some? then [Signature(encrypted.value)] else [])
    case MediaPart(_, _, _) => [Media(part)]
    case _ => []
  }

  function AtomsOf(parts: seq<Part>): seq<Atom> {
    if parts == [] then [] else AtomsOf(parts[..|parts| - 1]) + Atoms(parts[|parts| - 1])
  }

  function AtomsOfState(st: Assembly): seq<Atom> {
    AtomsOf(st.content) + (if st.pending.Some? then Atoms(st.pending.value) else [])
  }

  lemma MergeKeepsAtoms(target: Part, source: Part)
    requires Merge(target, source).Some?
    ensures Atoms(Merge(target, source).value) == Atoms(target) + Atoms(source)
  {
  }

  lemma FlushKeepsAtoms(st: Assembly, target: Part)
    ensures AtomsOf(FlushPart(st, target).content) == AtomsOf(st.content) + Atoms(target)
  {
    if IsContentPart(target) {
      assert (st.content + [target])[..|st.content|] == st.content;
    }
  }

  lemma AcceptKeepsAtoms(st: Assembly, part: Part)
    ensures AtomsOfState(Accept(st, part)) == AtomsOfState(st) + Atoms(part)
  {
    if IsRouted(st, part) {
      RoutedHoldsNoAtoms(st, part);
    } else if st.pending.Some? {
      var target := st.pending.value;
      if Merge(target, part).Some? {
        MergeKeepsAtoms(target, part);
        Regroup(AtomsOf(st.content), Atoms(target), Atoms(part));
      } else {
        FlushKeepsAtoms(st, target);
      }
    }
  }

  lemma RoutedHoldsNoAtoms(st: Assembly, part: Part)
    requires IsRouted(st, part)
    ensures Accept(st, part).content == st.content && Accept(st, part).pending == st.pending
    ensures AtomsOfState(st) + Atoms(part) == AtomsOfState(st)
  {
  }

  // Every character of text and thinking, every signature and every media part of the stream is in
  // the stored content, once and in stream order, and nothing else is.
  lemma {:induction false} ContentIsConserved(stream: seq<Part>)
    ensures AtomsOfState(AcceptAll(EMPTY, stream)) == AtomsOf(stream)
    ensures AtomsOf(Assemble(stream).content) == AtomsOf(stream)
  {
    if stream != [] {
      ContentIsConserved(stream[..|stream| - 1]);
      AcceptKeepsAtoms(AcceptAll(EMPTY, stream[..|stream| - 1]), stream[|stream| - 1]);
    }
    var st := AcceptAll(EMPTY, stream);
    if st.pending.Some? && IsContentPart(st.pending.value) {
      assert (st.content + [st.pending.value])[..|st.content|] == st.content;
    }
  }

  // ---- the verdict, read off the stream ----

  ghost predicate Holds(parts: seq<Part>, st: Assembly, p: Part -> bool) {
    (exists i :: 0 <= i < |parts| && p(parts[i])) <==>
      (exists i :: 0 <= i < |st.content| && p(st.content[i])) || (st.pending.Some? && p(st.pending.value))
  }

  // A property of content parts that a merged part has exactly when one of its two pieces has it.
  ghost predicate MergesAsOr(p: Part -> bool) {
    && (forall a, b :: Merge(a, b).Some? ==> (p(Merge(a, b).value) <==> p(a) || p(b)))
    && (forall a :: p(a) ==> IsContentPart(a))
  }

  lemma {:induction false} ContentPropertyHolds(stream: seq<Part>, p: Part -> bool)
    requires MergesAsOr(p)
    ensures Holds(stream, AcceptAll(EMPTY, stream), p)
  {
    if stream != [] {
      var init, part := stream[..|stream| - 1], stream[|stream| - 1];
      var st := AcceptAll(EMPTY, init);
      var next := Accept(st, part);
      ContentPropertyHolds(init, p);
      assert (exists i :: 0 <= i < |stream| && p(stream[i])) <==>
        (exists i :: 0 <= i < |init| && p(init[i])) || p(part) by {
        if i :| 0 <= i < |init| && p(init[i]) {
          assert p(stream[i]);
        }
        if i :| 0 <= i < |stream| && p(stream[i]) {
          assert i < |init| ==> p(init[i]);
        }
      }
      if !IsRouted(st, part) && st.pending.Some? && Merge(st.pending.value, part).None? {
        var target := st.pending.value;
        if IsContentPart(target) {
          assert next.content == st.content + [target];
          if p(target) {
            assert p(next.content[|st.content|]);
          }
          if i :| 0 <= i < |st.content| && p(st.content[i]) {
            assert p(next.content[i]);
          }
          if i :| 0 <= i < |next.content| && p(next.content[i]) {
            assert i < |st.content| ==> p(st.content[i]);
          }
        }
      }
    }
  }

  lemma {:induction false} CallsComeFromHeaders(stream: seq<Part>)
    ensures var st := AcceptAll(EMPTY, stream);
      (exists i :: 0 <= i < |stream| && stream[i].ToolCall?) <==>
        st.toolCalls != [] || (st.pending.Some? && st.pending.value.ToolCall?)
  {
    if stream != [] {
      var init, part := stream[..|stream| - 1], stream[|stream| - 1];
      CallsComeFromHeaders(init);
      assert (exists i :: 0 <= i < |stream| && stream[i].ToolCall?) <==>
             (exists i :: 0 <= i < |init| && init[i].ToolCall?) || part.ToolCall? by {
        if i :| 0 <= i < |init| && init[i].ToolCall? {
          assert stream[i].ToolCall?;
        }
        if i :| 0 <= i < |stream| && stream[i].ToolCall? {
          assert i < |init| ==> init[i].ToolCall?;
        }
      }
    }
  }

  lemma BlankConcat(s: string, t: string)
    ensures IsBlank(s + t) <==> IsBlank(s) && IsBlank(t)
  {
    if IsBlank(s + t) {
      assert forall i :: 0 <= i < |s| ==> s[i] == (s + t)[i];
      assert forall i :: 0 <= i < |t| ==> t[i] == (s + t)[|s| + i];
    }
  }

  lemma VerdictProperties()
    ensures MergesAsOr(IsContentPart) && MergesAsOr((p: Part) => p.ThinkPart?) && MergesAsOr(IsRealText)
  {
    forall a, b | Merge(a, b).Some? ensures IsRealText(Merge(a, b).value) <==> IsRealText(a) || IsRealText(b) {
      if a.TextPart? {
        BlankConcat(a.text, b.text);
      }
    }
  }

  ghost predicate AnyPart(parts: seq<Part>, p: Part -> bool) {
    exists i :: 0 <= i < |parts| && p(parts[i])
  }

  lemma {:induction false} FinishedContentHolds(stream: seq<Part>, p: Part -> bool)
    requires MergesAsOr(p)
    ensures AnyPart(Assemble(stream).content, p) <==> AnyPart(stream, p)
  {
    ContentPropertyHolds(stream, p);
    var st := AcceptAll(EMPTY, stream);
    var content := Assemble(stream).content;
    if i :| 0 <= i < |st.content| && p(st.content[i]) {
      assert p(content[i]);
    }
    if st.pending.Some? && p(st.pending.value) {
      assert p(content[|st.content|]);
    }
    if i :| 0 <= i < |content| && p(content[i]) {
      assert i < |st.content| ==> p(st.content[i]);
    }
  }

  // White space and line terminators (sections 12.2 and 12.3 of ECMA-262).
  const WHITE_SPACE :=
    "\t\n\U{0B}\U{0C}\r \U{A0}\U{1680}\U{2000}\U{2001}\U{2002}\U{2003}\U{2004}\U{2005}\U{2006}\U{2007}" +
    "\U{2008}\U{2009}\U{200A}\U{2028}\U{2029}\U{202F}\U{205F}\U{3000}\U{FEFF}"

  // A text that shows something.
  ghost predicate Shows(part: Part) {
    part.TextPart? && exists i :: 0 <= i < |part.text| && part.text[i] !in WHITE_SPACE
  }

  lemma SpacesAreWhiteSpace(c: char)
    ensures IsSpace(c) <==> c in WHITE_SPACE
  {
  }

  lemma RealTextShows(part: Part)
    ensures IsRealText(part) <==> Shows(part)
  {
    if part.TextPart? {
      forall i | 0 <= i < |part.text| ensures IsSpace(part.text[i]) <==> part.text[i] in WHITE_SPACE {
        SpacesAreWhiteSpace(part.text[i]);
      }
    }
  }

  lemma SomeTextShows(stream: seq<Part>)
    ensures AnyPart(stream, IsRealText) <==> exists i :: 0 <= i < |stream| && Shows(stream[i])
  {
    forall i | 0 <= i < |stream| ensures IsRealText(stream[i]) <==> Shows(stream[i]) {
      RealTextShows(stream[i]);
    }
  }

  // The response counts as empty when the stream has neither content nor headers, as incomplete when
  // it has thinking but no text other than white space and no headers, and is accepted otherwise.
  lemma VerdictDependsOnTheStream(stream: seq<Part>)
    ensures Judge(Assemble(stream)) ==
      if !AnyPart(stream, IsContentPart) && !AnyPart(stream, (p: Part) => p.ToolCall?) then EmptyResponse
      else if AnyPart(stream, (p: Part) => p.ThinkPart?) && !AnyPart(stream, (p: Part) => p.ToolCall?) &&
        !exists i :: 0 <= i < |stream| && Shows(stream[i])
      then ThinkingOnly
      else Message(Assemble(stream).content, Assemble(stream).toolCalls)
  {
    VerdictProperties();
    SomeTextShows(stream);
    var isThink := (p: Part) => p.ThinkPart?;
    var isCall := (p: Part) => p.ToolCall?;
    FinishedContentHolds(stream, IsContentPart);
    FinishedContentHolds(stream, isThink);
    FinishedContentHolds(stream, IsRealText);
    CallsComeFromHeaders(stream);
    var st := Assemble(stream);
    assert AnyPart(stream, isCall) <==> exists i :: 0 <= i < |stream| && stream[i].ToolCall?;
    assert AnyPart(st.content, isThink) <==> HasThink(st.content);
    assert AnyPart(st.content, IsRealText) <==> HasText(st.content);
    assert AnyPart(st.content, IsContentPart) <==> st.content != [] by {
      OnlyContentIsStored(stream);
      if st.content != [] {
        assert IsContentPart(st.content[0]);
      }
    }
  }

  lemma {:induction false} OnlyContentIsStored(stream: seq<Part>)
    ensures forall i :: 0 <= i < |AcceptAll(EMPTY, stream).content| ==>
      IsContentPart(AcceptAll(EMPTY, stream).content[i])
    ensures forall i :: 0 <= i < |Assemble(stream).content| ==> IsContentPart(Assemble(stream).content[i])
  {
    if stream != [] {
      OnlyContentIsStored(stream[..|stream| - 1]);
    }
  }

  // ---- re-chunking ----

  // p streamed as a and then b: text and arguments are cut anywhere, a signature comes last.
  predicate SplitsInto(p: Part, a: Part, b: Part) {
    match p
    case TextPart(text) => a.TextPart? && b.TextPart? && a.text + b.text == text
    case ThinkPart(think, encrypted) =>
      && a.ThinkPart? && b.ThinkPart? && a.think + b.think == think
      && a.encrypted.None? && b.encrypted == encrypted
    case ToolCallPart(more, index) =>
      && a.ToolCallPart? && b.ToolCallPart? && a.index == index && b.index == index
      && more.Some? && a.argumentsPart.Some? && b.argumentsPart.Some?
      && a.argumentsPart.value + b.argumentsPart.value == more.value
    case _ => false
  }

  // Equal, but for which dropped delta is pending.
  predicate Same(s: Assembly, t: Assembly) {
    s == t || (s.(pending := None) == t.(pending := None)
               && s.pending.Some? && s.pending.value.ToolCallPart? && t.pending.Some? && t.pending.value.ToolCallPart?)
  }

  lemma AppendTwice(arguments: Option<string>, x: string, y: string)
    ensures AppendArguments(AppendArguments(arguments, Some(x)), Some(y)) == AppendArguments(arguments, Some(x + y))
  {
    if arguments.Some? {
      assert (arguments.value + x) + y == arguments.value + (x + y);
    }
  }

  lemma AcceptPieces(st: Assembly, p: Part, a: Part, b: Part)
    requires SplitsInto(p, a, b)
    ensures Same(Accept(Accept(st, a), b), Accept(st, p))
  {
    if p.ToolCallPart? {
      AcceptDeltaPieces(st, p, a, b);
    } else if st.pending.Some? {
      var target := st.pending.value;
      if p.TextPart? && target.TextPart? {
        assert (target.text + a.text) + b.text == target.text + p.text;
      }
      if p.ThinkPart? && target.ThinkPart? {
        assert (target.think + a.think) + b.think == target.think + p.think;
      }
    }
  }

  lemma AcceptDeltaPieces(st: Assembly, p: Part, a: Part, b: Part)
    requires SplitsInto(p, a, b) && p.ToolCallPart?
    ensures Same(Accept(Accept(st, a), b), Accept(st, p))
  {
    var x, y := a.argumentsPart.value, b.argumentsPart.value;
    if IsRouted(st, p) {
      var k := st.indexMap[p.index.value];
      if k < |st.toolCalls| {
        AppendTwice(st.toolCalls[k].arguments, x, y);
        assert AppendToCall(AppendToCall(st, k, Some(x)), k, Some(y)).toolCalls ==
          AppendToCall(st, k, Some(x + y)).toolCalls;
      }
    } else if st.pending.Some? && st.pending.value.ToolCall? {
      AppendTwice(st.pending.value.arguments, x, y);
    }
  }

  lemma AcceptSame(s: Assembly, t: Assembly, p: Part)
    requires Same(s, t)
    ensures Same(Accept(s, p), Accept(t, p))
  {
  }

  // ps is p cut into one or more consecutive pieces.
  ghost predicate Pieces(p: Part, ps: seq<Part>)
    decreases |ps|
  {
    if |ps| <= 1 then ps == [p]
    else exists rest :: SplitsInto(p, ps[0], rest) && Pieces(rest, ps[1..])
  }

  // ys is xs with every part cut into pieces, most of them into one.
  ghost predicate Rechunks(xs: seq<Part>, ys: seq<Part>)
    decreases |xs|
  {
    if xs == [] then ys == []
    else exists k :: 0 <= k <= |ys| && Pieces(xs[0], ys[..k]) && Rechunks(xs[1..], ys[k..])
  }

  function Fold(st: Assembly, parts: seq<Part>): Assembly
    decreases |parts|
  {
    if parts == [] then st else Fold(Accept(st, parts[0]), parts[1..])
  }

  lemma {:induction false} FoldIsAcceptAll(st: Assembly, parts: seq<Part>)
    ensures Fold(st, parts) == AcceptAll(st, parts)
    decreases |parts|
  {
    if |parts| == 1 {
      assert Fold(Accept(st, parts[0]), []) == Accept(st, parts[0]);
    } else if |parts| > 1 {
      var mid := parts[1..][..|parts| - 2];
      assert parts[..|parts| - 1][1..] == mid;
      FoldIsAcceptAll(Accept(st, parts[0]), parts[1..]);
      FoldIsAcceptAll(st, parts[..|parts| - 1]);
      FoldIsAcceptAll(Accept(st, parts[0]), mid);
      assert AcceptAll(Accept(st, parts[0]), parts[1..]) ==
        Accept(AcceptAll(Accept(st, parts[0]), mid), parts[|parts| - 1]);
      assert Fold(st, parts[..|parts| - 1]) == Fold(Accept(st, parts[0]), mid);
    }
  }

  lemma {:induction false} FoldSame(s: Assembly, t: Assembly, parts: seq<Part>)
    requires Same(s, t)
    ensures Same(Fold(s, parts), Fold(t, parts))
    decreases |parts|
  {
    if parts != [] {
      AcceptSame(s, t, parts[0]);
      FoldSame(Accept(s, parts[0]), Accept(t, parts[0]), parts[1..]);
    }
  }

  lemma {:induction false} FoldPieces(st: Assembly, p: Part, ps: seq<Part>)
    requires Pieces(p, ps)
    ensures Same(Fold(st, ps), Accept(st, p))
    decreases |ps|
  {
    if |ps| > 1 {
      var rest :| SplitsInto(p, ps[0], rest) && Pieces(rest, ps[1..]);
      FoldPieces(Accept(st, ps[0]), rest, ps[1..]);
      AcceptPieces(st, p, ps[0], rest);
    } else {
      assert Fold(Accept(st, ps[0]), ps[1..]) == Accept(st, ps[0]);
    }
  }

  lemma {:induction false} FoldOfConcat(st: Assembly, xs: seq<Part>, ys: seq<Part>)
    ensures Fold(st, xs + ys) == Fold(Fold(st, xs), ys)
    decreases |xs|
  {
    if xs == [] {
      assert xs + ys == ys;
    } else {
      assert (xs + ys)[1..] == xs[1..] + ys;
      FoldOfConcat(Accept(st, xs[0]), xs[1..], ys);
    }
  }

  lemma {:induction false} FoldRechunked(s: Assembly, t: Assembly, xs: seq<Part>, ys: seq<Part>)
    requires Same(s, t) && Rechunks(xs, ys)
    ensures Same(Fold(s, xs), Fold(t, ys))
    decreases |xs|
  {
    if xs != [] {
      var k :| 0 <= k <= |ys| && Pieces(xs[0], ys[..k]) && Rechunks(xs[1..], ys[k..]);
      assert ys == ys[..k] + ys[k..];
      FoldOfConcat(t, ys[..k], ys[k..]);
      AcceptSame(s, t, xs[0]);
      FoldPieces(t, xs[0], ys[..k]);
      SameIsTransitive(Accept(s, xs[0]), Accept(t, xs[0]), Fold(t, ys[..k]));
      FoldRechunked(Accept(s, xs[0]), Fold(t, ys[..k]), xs[1..], ys[k..]);
    }
  }

  lemma SameIsTransitive(r: Assembly, s: Assembly, t: Assembly)
    requires Same(r, s) && (Same(s, t) || Same(t, s))
    ensures Same(r, t)
  {
  }

  // However the provider cuts text, thinking and arguments into chunks, the message and the verdict
  // come out the same.
  lemma RechunkingChangesNothing(stream: seq<Part>, chunked: seq<Part>)
    requires Rechunks(stream, chunked)
    ensures Assemble(chunked) == Assemble(stream)
    ensures Judge(Assemble(chunked)) == Judge(Assemble(stream))
  {
    FoldRechunked(EMPTY, EMPTY, stream, chunked);
    FoldIsAcceptAll(EMPTY, stream);
    FoldIsAcceptAll(EMPTY, chunked);
  }
}
