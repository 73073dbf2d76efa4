/** Putting streamed tool-call deltas together again. */
module ToolCallCollector {
  import opened Common
  import opened Conversation

  datatype FunctionDelta = FunctionDelta(name: Option<string>, arguments: Option<string>)

  datatype Delta = Delta(index: int, id: Option<string>, func: Option<FunctionDelta>)

  datatype Accumulator = Accumulator(id: string, name: string, arguments: string)

  const Blank := Accumulator("", "", "")

  /** What an optional text adds: an absent one and an empty one add nothing. */
  function Text(t: Option<string>): string {
    if t.Some? then t.value else ""
  }

  function NameOf(d: Delta): string {
    if d.func.Some? then Text(d.func.value.name) else ""
  }

  function ArgumentsOf(d: Delta): string {
    if d.func.Some? then Text(d.func.value.arguments) else ""
  }

  function Absorb(acc: Accumulator, d: Delta): Accumulator {
    Accumulator(if Text(d.id) != "" then Text(d.id) else acc.id, acc.name + NameOf(d), acc.arguments + ArgumentsOf(d))
  }

  function Feed(accumulators: map<int, Accumulator>, d: Delta): map<int, Accumulator> {
    accumulators[d.index := Absorb(Slot(accumulators, d.index), d)]
  }

  function Slot(accumulators: map<int, Accumulator>, index: int): Accumulator {
    if index in accumulators then accumulators[index] else Blank
  }

  /** The accumulators after a stream of deltas. */
  function Collected(deltas: seq<Delta>): map<int, Accumulator> {
    if deltas == [] then map[] else Feed(Collected(deltas[..|deltas| - 1]), deltas[|deltas| - 1])
  }

  // ---- sorted() ----

  predicate Increasing(s: seq<int>) {
    forall i, j :: 0 <= i < j < |s| ==> s[i] < s[j]
  }

  lemma {:induction false} HasLeast(s: set<int>)
    requires |s| > 0
    ensures exists m :: m in s && forall n :: n in s ==> m <= n
  {
    var x := SomeMember(s);
    if s != {x} {
      HasLeast(s - {x});
      var m :| m in s - {x} && forall n :: n in s - {x} ==> m <= n;
      var least := if m <= x then m else x;
      assert forall n :: n in s ==> n == x || n in s - {x};
      assert least in s && forall n :: n in s ==> least <= n;
    }
  }

  function Least(s: set<int>): (m: int)
    requires |s| > 0
    ensures m in s && forall n :: n in s ==> m <= n
  {
    HasLeast(s);
    var m :| m in s && forall n :: n in s ==> m <= n;
    m
  }

  function Sorted(s: set<int>): (r: seq<int>)
    ensures Increasing(r) && |r| == |s|
    ensures forall n :: n in r <==> n in s
  {
    if |s| == 0 then [] else [Least(s)] + Sorted(s - {Least(s)})
  }

  // ---- to_tool_calls ----

  function Digits(n: nat): string {
    if n < 10 then [('0' as int + n) as char] else Digits(n / 10) + Digits(n % 10)
  }

  function Decimal(n: int): string {
    if n < 0 then "-" + Digits(-n) else Digits(n)
  }

  /** An id that never arrived is made up from the index, and absent arguments are an empty object. */
  function Call(index: int, acc: Accumulator): ToolCall {
    ToolCall(if acc.id != "" then acc.id else "call_" + Decimal(index), acc.name,
             if acc.arguments != "" then acc.arguments else "{}")
  }

  function CallsFor(indices: seq<int>, accumulators: map<int, Accumulator>): (calls: seq<ToolCall>)
    requires forall n :: n in indices ==> n in accumulators
    ensures |calls| == |indices|
    ensures forall k :: 0 <= k < |calls| ==> calls[k] == Call(indices[k], accumulators[indices[k]])
  {
    seq(|indices|, k requires 0 <= k < |indices| => Call(indices[k], accumulators[indices[k]]))
  }

  function ToolCalls(accumulators: map<int, Accumulator>): seq<ToolCall> {
    CallsFor(Sorted(accumulators.Keys), accumulators)
  }

  lemma CollectedAppend(deltas: seq<Delta>, d: Delta)
    ensures Collected(deltas + [d]) == Feed(Collected(deltas), d)
  {
    assert (deltas + [d])[..|deltas|] == deltas;
  }

  /** Adding the empty text is the same as adding nothing. */
  lemma AbsorbedInPlace(acc: Accumulator, d: Delta, acc': Accumulator)
    requires acc'.id == if Text(d.id) != "" then Text(d.id) else acc.id
    requires acc'.name == if NameOf(d) == "" then acc.name else acc.name + NameOf(d)
    requires acc'.arguments == if ArgumentsOf(d) == "" then acc.arguments else acc.arguments + ArgumentsOf(d)
    ensures acc' == Absorb(acc, d)
  {
    assert acc.name + "" == acc.name && acc.arguments + "" == acc.arguments;
  }

  class Collector {
    var accumulators: map<int, Accumulator>
    ghost var fed: seq<Delta>

    /** The accumulators are those of the deltas fed so far. */
    ghost predicate Valid() reads this {
      accumulators == Collected(fed)
    }

    constructor ()
      ensures Valid() && fed == []
    {
      accumulators := map[];
      fed := [];
    }

    method FeedDelta(d: Delta)
      requires Valid()
      modifies this
      ensures Valid() && fed == old(fed) + [d]
      ensures accumulators == Feed(old(accumulators), d)
    {
      hide Collected;
      var acc := Blank;
      if d.index in accumulators {
        acc := accumulators[d.index];
      } else {
        accumulators := accumulators[d.index := acc];
      }
      ghost var slot := acc;
      if d.id.Some? && d.id.value != "" {
        acc := acc.(id := d.id.value);
      }
      if d.func.Some? {
        var f := d.func.value;
        if f.name.Some? && f.name.value != "" {
          acc := acc.(name := acc.name + f.name.value);
        }
        if f.arguments.Some? && f.arguments.value != "" {
          acc := acc.(arguments := acc.arguments + f.arguments.value);
        }
      }
      AbsorbedInPlace(slot, d, acc);
      accumulators := accumulators[d.index := acc];
      CollectedAppend(fed, d);
      fed := fed + [d];
    }

    /** The calls are a function of the deltas alone. */
    method ToToolCalls() returns (calls: seq<ToolCall>)
      requires Valid()
      ensures calls == ToolCalls(Collected(fed))
    {
      hide Collected, Sorted, Call;
      if accumulators == map[] {
        return [];
      }
      var indices := Sorted(accumulators.Keys);
      calls := [];
      for k := 0 to |indices|
        invariant |calls| == k
        invariant forall j :: 0 <= j < k ==> calls[j] == Call(indices[j], accumulators[indices[j]])
      {
        calls := calls + [Call(indices[k], accumulators[indices[k]])];
      }
      assert calls == ToolCalls(accumulators);
    }

    method HasToolCalls() returns (has: bool)
      requires Valid()
      ensures has <==> fed != []
    {
      has := accumulators != map[];
      assert fed != [] ==> fed[|fed| - 1].index in accumulators;
    }
  }

  // ---- Demultiplexing ----

  /** The deltas of one index, in order. */
  function Of(deltas: seq<Delta>, index: int): seq<Delta> {
    if deltas == [] then []
    else
      Of(deltas[..|deltas| - 1], index)
      + if deltas[|deltas| - 1].index == index then [deltas[|deltas| - 1]] else []
  }

  function Names(deltas: seq<Delta>): string {
    if deltas == [] then "" else NameOf(deltas[0]) + Names(deltas[1..])
  }

  function Arguments(deltas: seq<Delta>): string {
    if deltas == [] then "" else ArgumentsOf(deltas[0]) + Arguments(deltas[1..])
  }

  /** From here on, only this delta brings an id. */
  ghost predicate BringsLastId(deltas: seq<Delta>, i: int) {
    && 0 <= i < |deltas| && Text(deltas[i].id) != ""
    && forall j :: i < j < |deltas| ==> Text(deltas[j].id) == ""
  }

  /** The last id that is not empty. */
  ghost predicate IsLastId(deltas: seq<Delta>, id: string) {
    if forall i :: 0 <= i < |deltas| ==> Text(deltas[i].id) == "" then id == ""
    else exists i :: BringsLastId(deltas, i) && Text(deltas[i].id) == id
  }

  lemma {:induction false} NamesAppend(deltas: seq<Delta>, d: Delta)
    ensures Names(deltas + [d]) == Names(deltas) + NameOf(d)
    ensures Arguments(deltas + [d]) == Arguments(deltas) + ArgumentsOf(d)
  {
    if deltas != [] {
      NamesAppend(deltas[1..], d);
      assert (deltas + [d])[1..] == deltas[1..] + [d];
    } else {
      assert ([] + [d])[1..] == [];
    }
  }

  lemma LastIdAppend(deltas: seq<Delta>, id: string, d: Delta)
    requires IsLastId(deltas, id)
    ensures IsLastId(deltas + [d], if Text(d.id) != "" then Text(d.id) else id)
  {
    hide Text;
    var more := deltas + [d];
    assert more[|deltas|] == d;
    assert forall i :: 0 <= i < |deltas| ==> more[i] == deltas[i];
    if Text(d.id) != "" {
      assert BringsLastId(more, |deltas|);
    } else if exists i :: 0 <= i < |deltas| && Text(deltas[i].id) != "" {
      var i :| BringsLastId(deltas, i) && Text(deltas[i].id) == id;
      assert BringsLastId(more, i);
    }
  }

  lemma OfAppend(deltas: seq<Delta>, d: Delta, index: int)
    ensures Of(deltas + [d], index) == if d.index == index then Of(deltas, index) + [d] else Of(deltas, index)
  {
    assert (deltas + [d])[..|deltas|] == deltas;
  }

  lemma Unsnoc(deltas: seq<Delta>)
    requires deltas != []
    ensures deltas == deltas[..|deltas| - 1] + [deltas[|deltas| - 1]]
  {
  }

  /** For every interleaving, an index has an accumulator exactly when a delta named it, and that one holds the texts
      of its own deltas joined in order and the last id among them. */
  lemma {:induction false} CollectorDemultiplexes(deltas: seq<Delta>, index: int)
    ensures index in Collected(deltas) <==> Of(deltas, index) != []
    ensures Slot(Collected(deltas), index).name == Names(Of(deltas, index))
    ensures Slot(Collected(deltas), index).arguments == Arguments(Of(deltas, index))
    ensures IsLastId(Of(deltas, index), Slot(Collected(deltas), index).id)
  {
    if deltas != [] {
      hide Collected, Of, Names, Arguments, IsLastId;
      var init, d := deltas[..|deltas| - 1], deltas[|deltas| - 1];
      Unsnoc(deltas);
      CollectorDemultiplexes(init, index);
      CollectedAppend(init, d);
      OfAppend(init, d, index);
      if d.index == index {
        NamesAppend(Of(init, index), d);
        LastIdAppend(Of(init, index), Slot(Collected(init), index).id, d);
      }
    }
  }

  /** Deltas of other indices have no influence. */
  lemma {:induction false} OwnDeltasDecide(deltas: seq<Delta>, index: int)
    ensures index in Collected(deltas) <==> index in Collected(Of(deltas, index))
    ensures Slot(Collected(deltas), index) == Slot(Collected(Of(deltas, index)), index)
  {
    if deltas != [] {
      hide Collected, Of;
      var init, d := deltas[..|deltas| - 1], deltas[|deltas| - 1];
      Unsnoc(deltas);
      OwnDeltasDecide(init, index);
      CollectedAppend(init, d);
      OfAppend(init, d, index);
      if d.index == index {
        CollectedAppend(Of(init, index), d);
      }
    }
  }

  /** Two interleavings of the same per-index streams give the same calls. */
  lemma InterleavingDoesNotMatter(deltas: seq<Delta>, deltas': seq<Delta>)
    requires forall index :: Of(deltas, index) == Of(deltas', index)
    ensures Collected(deltas) == Collected(deltas') && ToolCalls(Collected(deltas)) == ToolCalls(Collected(deltas'))
  {
    hide Of, Collected, ToolCalls;
    forall index
      ensures index in Collected(deltas) <==> index in Collected(deltas')
      ensures index in Collected(deltas) ==> Collected(deltas)[index] == Collected(deltas')[index]
    {
      OwnDeltasDecide(deltas, index);
      OwnDeltasDecide(deltas', index);
    }
    assert Collected(deltas).Keys == Collected(deltas').Keys;
    assert Collected(deltas) == Collected(deltas');
  }

  lemma {:induction false} OfConcat(a: seq<Delta>, b: seq<Delta>, index: int)
    ensures Of(a + b, index) == Of(a, index) + Of(b, index)
  {
    if b == [] {
      assert a + b == a;
    } else {
      OfConcat(a, b[..|b| - 1], index);
      assert (a + b)[..|a + b| - 1] == a + b[..|b| - 1];
    }
  }

  /** Adjacent deltas of different indices may change places. */
  lemma SwappingNeighboursChangesNothing(before: seq<Delta>, a: Delta, b: Delta, after: seq<Delta>)
    requires a.index != b.index
    ensures ToolCalls(Collected(before + [a, b] + after)) == ToolCalls(Collected(before + [b, a] + after))
  {
    hide Collected, ToolCalls;
    forall index ensures Of(before + [a, b] + after, index) == Of(before + [b, a] + after, index) {
      OfConcat(before + [a, b], after, index);
      OfConcat(before, [a, b], index);
      OfConcat(before + [b, a], after, index);
      OfConcat(before, [b, a], index);
      OfPair(a, b, index);
      OfPair(b, a, index);
    }
    InterleavingDoesNotMatter(before + [a, b] + after, before + [b, a] + after);
  }

  lemma OfPair(a: Delta, b: Delta, index: int)
    ensures Of([a, b], index) == (if a.index == index then [a] else []) + if b.index == index then [b] else []
  {
    assert [a, b][..1] == [a];
    assert [a][..0] == [];
    assert Of([a], index) == if a.index == index then [a] else [];
  }

  // ---- The round trip ----

  /** The deltas carry these calls, the k-th under index k, in pieces of any size and in any interleaving. */
  ghost predicate Carries(deltas: seq<Delta>, calls: seq<ToolCall>) {
    && (forall d :: d in deltas ==> 0 <= d.index < |calls|)
    && forall k :: 0 <= k < |calls| ==>
         && Of(deltas, k) != []
         && Names(Of(deltas, k)) == calls[k].name
         && Arguments(Of(deltas, k)) == calls[k].arguments
         && IsLastId(Of(deltas, k), calls[k].id)
  }

  lemma LastIdIsUnique(deltas: seq<Delta>, id: string, id': string)
    requires IsLastId(deltas, id) && IsLastId(deltas, id')
    ensures id == id'
  {
    if exists i :: 0 <= i < |deltas| && Text(deltas[i].id) != "" {
      var i :| BringsLastId(deltas, i) && Text(deltas[i].id) == id;
      var i' :| BringsLastId(deltas, i') && Text(deltas[i'].id) == id';
      assert i == i';
    }
  }

  lemma {:induction false} OfIsEmptyWithout(deltas: seq<Delta>, index: int)
    requires forall d :: d in deltas ==> d.index != index
    ensures Of(deltas, index) == []
  {
    if deltas != [] {
      assert deltas[|deltas| - 1] in deltas;
      OfIsEmptyWithout(deltas[..|deltas| - 1], index);
    }
  }

  function Below(n: nat): (s: set<int>)
    ensures |s| == n && forall k :: k in s <==> 0 <= k < n
  {
    if n == 0 then {} else Below(n - 1) + {n - 1}
  }

  /** A strictly increasing enumeration of 0..n-1 is the identity. */
  lemma IncreasingFromZero(s: seq<int>, n: nat)
    requires Increasing(s) && |s| == n && forall k :: k in s <==> 0 <= k < n
    ensures forall k :: 0 <= k < n ==> s[k] == k
  {
    forall k | 0 <= k < n ensures s[k] == k {
      IncreasingAtLeast(s, k);
      IncreasingAtMost(s, k);
    }
  }

  lemma {:induction false} IncreasingAtLeast(s: seq<int>, k: nat)
    requires Increasing(s) && k < |s| && forall x :: x in s ==> x >= 0
    ensures s[k] >= k
  {
    assert s[k] in s;
    if k > 0 {
      IncreasingAtLeast(s, k - 1);
    }
  }

  lemma {:induction false} IncreasingAtMost(s: seq<int>, k: nat)
    requires Increasing(s) && k < |s| && forall x :: x in s ==> x < |s|
    ensures s[k] <= k
    decreases |s| - k
  {
    assert s[k] in s;
    if k + 1 < |s| {
      IncreasingAtMost(s, k + 1);
    }
  }

  /** A call as it comes back: a missing id is made up from its index, missing arguments are an empty object. */
  function Completed(index: nat, call: ToolCall): (c: ToolCall)
    ensures c.name == call.name && c.id != "" && c.arguments != ""
    ensures c == call <==> call.id != "" && call.arguments != ""
  {
    Call(index, Accumulator(call.id, call.name, call.arguments))
  }

  lemma IndicesOfCalls(deltas: seq<Delta>, calls: seq<ToolCall>)
    requires Carries(deltas, calls)
    ensures |Sorted(Collected(deltas).Keys)| == |calls|
    ensures forall k :: 0 <= k < |calls| ==> Sorted(Collected(deltas).Keys)[k] == k
    ensures forall k :: 0 <= k < |calls| ==> k in Collected(deltas)
  {
    hide Collected, Of, IsLastId, Names, Arguments, Sorted;
    forall index ensures index in Collected(deltas) <==> 0 <= index < |calls| {
      CollectorDemultiplexes(deltas, index);
      if !(0 <= index < |calls|) {
        OfIsEmptyWithout(deltas, index);
      }
    }
    assert Collected(deltas).Keys == Below(|calls|);
    IncreasingFromZero(Sorted(Collected(deltas).Keys), |calls|);
  }

  lemma CallOfIndex(deltas: seq<Delta>, calls: seq<ToolCall>, k: nat)
    requires Carries(deltas, calls) && k < |calls| && k in Collected(deltas)
    ensures Call(k, Collected(deltas)[k]) == Completed(k, calls[k])
  {
    hide Collected, Of, IsLastId, Names, Arguments, Decimal;
    CollectorDemultiplexes(deltas, k);
    LastIdIsUnique(Of(deltas, k), Collected(deltas)[k].id, calls[k].id);
  }

  /** However calls are cut up and interleaved, the collector gives them back, each with what was missing made up; it
      gives back exactly these calls if and only if no id and no arguments text is empty. */
  lemma StreamedCallsComeBack(deltas: seq<Delta>, calls: seq<ToolCall>)
    requires Carries(deltas, calls)
    ensures var back := ToolCalls(Collected(deltas));
      && |back| == |calls|
      && (forall k :: 0 <= k < |calls| ==> back[k] == Completed(k, calls[k]))
      && (back == calls <==> forall k :: 0 <= k < |calls| ==> calls[k].id != "" && calls[k].arguments != "")
  {
    hide Collected, Sorted, Carries, Call, Completed;
    IndicesOfCalls(deltas, calls);
    var back := ToolCalls(Collected(deltas));
    forall k | 0 <= k < |calls| ensures back[k] == Completed(k, calls[k]) {
      CallOfIndex(deltas, calls, k);
    }
    assert back == calls <==> forall k :: 0 <= k < |calls| ==> back[k] == calls[k];
  }
}
