// The queue of pending requests: statuses, the operations the connection performs on it,
// and the slots of the responses it still waits for.

module Queue {
  import opened Resp3

  datatype Phase = Waiting | Staged | Written

  /** A request as the connection sees it: its payload, its response count, and its flags. */
  datatype Req = Req(
    payload: Bytes,
    expected: nat,
    helloPriority: bool,
    cancelOnConnectionLost: bool,
    cancelIfNotConnected: bool,
    cancelIfUnresponded: bool)

  /** An entry of the queue. `id` stands for the identity of the `req_info` object. */
  datatype Info = Info(id: nat, req: Req, remaining: nat, phase: Phase, readSize: nat)

  predicate IsWaiting(i: Info) { i.phase.Waiting? }

  predicate NotStaged(i: Info) { !i.phase.Staged? }

  predicate NotWaiting(i: Info) { !i.phase.Waiting? }

  function ToWaiting(i: Info): Info { i.(phase := Waiting) }

  function ToStaged(i: Info): Info { if i.phase.Waiting? then i.(phase := Staged) else i }

  function ToWritten(i: Info): Info { if i.phase.Staged? then i.(phase := Written) else i }

  /** Whether a request outlives the connection it was queued for. */
  predicate Survives(i: Info) {
    if i.phase.Waiting? then !i.req.cancelOnConnectionLost else !i.req.cancelIfUnresponded
  }

  predicate Perishes(i: Info) { !Survives(i) }

  /** A staged request no response will come for: it is complete once it is written. */
  predicate Answerless(i: Info) { i.phase.Staged? && i.req.expected == 0 }

  predicate NotAnswerless(i: Info) { !Answerless(i) }

  // ---- Lists

  function Filter<T>(f: T -> bool, s: seq<T>): seq<T> {
    if s == [] then [] else (if f(s[0]) then [s[0]] else []) + Filter(f, s[1..])
  }

  function Map<T, U>(f: T -> U, s: seq<T>): (r: seq<U>)
    ensures |r| == |s| && forall i :: 0 <= i < |s| ==> r[i] == f(s[i])
  {
    if s == [] then [] else [f(s[0])] + Map(f, s[1..])
  }

  lemma {:induction false} FilterConcat<T>(f: T -> bool, s: seq<T>, t: seq<T>)
    ensures Filter(f, s + t) == Filter(f, s) + Filter(f, t)
  {
    if s == [] {
      assert s + t == t;
    } else {
      assert (s + t)[1..] == s[1..] + t;
      FilterConcat(f, s[1..], t);
      Regroup(if f(s[0]) then [s[0]] else [], Filter(f, s[1..]), Filter(f, t));
    }
  }

  lemma {:induction false} FilterNone<T>(f: T -> bool, s: seq<T>)
    requires forall i :: 0 <= i < |s| ==> !f(s[i])
    ensures Filter(f, s) == []
  {
    if s != [] {
      FilterNone(f, s[1..]);
    }
  }

  lemma {:induction false} FilterAll<T>(f: T -> bool, s: seq<T>)
    requires forall i :: 0 <= i < |s| ==> f(s[i])
    ensures Filter(f, s) == s
  {
    if s != [] {
      FilterAll(f, s[1..]);
      HeadTail(s);
    }
  }

  ghost predicate AllAre<T>(f: T -> bool, s: seq<T>) {
    forall i :: 0 <= i < |s| ==> f(s[i])
  }

  lemma {:induction false} FilterAllAre<T>(f: T -> bool, g: T -> bool, s: seq<T>)
    ensures AllAre(g, s) ==> AllAre(g, Filter(f, s))
    ensures AllAre(f, Filter(f, s))
  {
    if s != [] {
      FilterAllAre(f, g, s[1..]);
    }
  }

  // ---- Order

  function Rank(p: Phase): nat {
    match p case Written => 0 case Staged => 1 case Waiting => 2
  }

  /** Written requests come first, then staged ones, then waiting ones. */
  ghost predicate Sorted(q: seq<Info>) {
    forall i, j :: 0 <= i < j < |q| ==> Rank(q[i].phase) <= Rank(q[j].phase)
  }

  /** Where the waiting part of a sorted queue begins. */
  function FirstWaiting(q: seq<Info>): (k: nat)
    ensures k <= |q|
    ensures forall i :: 0 <= i < k ==> NotWaiting(q[i])
    ensures k < |q| ==> IsWaiting(q[k])
  {
    if q == [] || IsWaiting(q[0]) then 0 else 1 + FirstWaiting(q[1..])
  }

  function InsertBeforeWaiting(q: seq<Info>, i: Info): seq<Info> {
    if q == [] || IsWaiting(q[0]) then [i] + q else [q[0]] + InsertBeforeWaiting(q[1..], i)
  }

  /** `add_request_info`: at the back, or in front of the waiting part. */
  function Insert(q: seq<Info>, i: Info): seq<Info> {
    if i.req.helloPriority then InsertBeforeWaiting(q, i) else q + [i]
  }

  /** `coalesce_requests` marks what it has staged. */
  function Stage(q: seq<Info>): seq<Info> { Map(ToStaged, q) }

  /** `on_write` drops the requests that are complete and marks the others. */
  function Write(q: seq<Info>): seq<Info> { Map(ToWritten, Filter(NotAnswerless, q)) }

  /** `cancel_on_conn_lost` keeps the survivors, all of them waiting again. */
  function Lose(q: seq<Info>): seq<Info> { Map(ToWaiting, Filter(Survives, q)) }

  predicate HasId(id: nat, i: Info) { i.id == id }

  function Remove(q: seq<Info>, id: nat): seq<Info> { Filter((i: Info) => !HasId(id, i), q) }

  /** The front request has received a response of `size` bytes. */
  function Answer(q: seq<Info>, size: nat): seq<Info>
    requires q != [] && q[0].remaining > 0
  {
    if q[0].remaining == 1 then q[1..]
    else [q[0].(remaining := q[0].remaining - 1, readSize := q[0].readSize + size)] + q[1..]
  }

  // ---- Response slots

  /** Place `index` of the response of request `id`. */
  datatype Slot = Slot(id: nat, index: nat)

  function Slots(id: nat, from: nat, end: nat): (s: seq<Slot>)
    ensures |s| == if from <= end then end - from else 0
    ensures forall k :: 0 <= k < |s| ==> s[k] == Slot(id, from + k)
    decreases end - from
  {
    if from >= end then [] else [Slot(id, from)] + Slots(id, from + 1, end)
  }

  ghost predicate Counted(i: Info) {
    i.remaining <= i.req.expected && (i.req.expected > 0 ==> i.remaining > 0)
  }

  ghost predicate AllCounted(q: seq<Info>) {
    forall i :: 0 <= i < |q| ==> Counted(q[i])
  }

  /** The slots a request is still to fill. */
  function OwnSlots(i: Info): seq<Slot> {
    if i.remaining <= i.req.expected then Slots(i.id, i.req.expected - i.remaining, i.req.expected) else []
  }

  function AllSlots(q: seq<Info>): seq<Slot> {
    if q == [] then [] else OwnSlots(q[0]) + AllSlots(q[1..])
  }

  /** The slots owed by commands that are on the wire, in queue order. */
  function Owed(q: seq<Info>): seq<Slot> { AllSlots(Filter(NotWaiting, q)) }

  function Payloads(q: seq<Info>): Bytes {
    if q == [] then "" else q[0].req.payload + Payloads(q[1..])
  }

  function Ids(q: seq<Info>): seq<nat> {
    if q == [] then [] else [q[0].id] + Ids(q[1..])
  }

  // ---- What the operations keep

  lemma {:induction false} AllSlotsConcat(q: seq<Info>, r: seq<Info>)
    ensures AllSlots(q + r) == AllSlots(q) + AllSlots(r)
  {
    if q == [] {
      assert q + r == r;
    } else {
      assert (q + r)[1..] == q[1..] + r;
      AllSlotsConcat(q[1..], r);
      Regroup(OwnSlots(q[0]), AllSlots(q[1..]), AllSlots(r));
    }
  }

  lemma {:induction false} PayloadsConcat(q: seq<Info>, r: seq<Info>)
    ensures Payloads(q + r) == Payloads(q) + Payloads(r)
  {
    if q == [] {
      assert q + r == r;
    } else {
      assert (q + r)[1..] == q[1..] + r;
      PayloadsConcat(q[1..], r);
      Regroup(q[0].req.payload, Payloads(q[1..]), Payloads(r));
    }
  }

  lemma {:induction false} IdsConcat(q: seq<Info>, r: seq<Info>)
    ensures Ids(q + r) == Ids(q) + Ids(r)
  {
    if q == [] {
      assert q + r == r;
    } else {
      assert (q + r)[1..] == q[1..] + r;
      IdsConcat(q[1..], r);
    }
  }

  lemma AllWaiting(q: seq<Info>)
    requires Sorted(q) && q != [] && IsWaiting(q[0])
    ensures forall i :: 0 <= i < |q| ==> IsWaiting(q[i])
    ensures Filter(NotWaiting, q) == [] && Filter(IsWaiting, q) == q
  {
    assert forall i | 0 < i < |q| :: Rank(q[0].phase) <= Rank(q[i].phase);
    FilterNone(NotWaiting, q);
    FilterAll(IsWaiting, q);
  }

  ghost predicate AtLeast(r: nat, q: seq<Info>) {
    forall i :: 0 <= i < |q| ==> r <= Rank(q[i].phase)
  }

  lemma SortedCons(x: Info, q: seq<Info>)
    ensures Sorted([x] + q) <==> Sorted(q) && AtLeast(Rank(x.phase), q)
  {
    var p := [x] + q;
    assert forall i | 0 <= i < |q| :: q[i] == p[i + 1];
    if Sorted(p) {
      forall i | 0 <= i < |q|
        ensures Rank(x.phase) <= Rank(q[i].phase)
      {
        assert Rank(p[0].phase) <= Rank(p[i + 1].phase);
      }
    }
  }

  lemma SortedTail(q: seq<Info>)
    requires q != [] && Sorted(q)
    ensures Sorted(q[1..]) && AtLeast(Rank(q[0].phase), q[1..])
  {
    HeadTail(q);
    SortedCons(q[0], q[1..]);
  }

  lemma ConsParts<T>(x: T, s: seq<T>)
    ensures ([x] + s)[0] == x && ([x] + s)[1..] == s && [] + s == s
  {
  }

  lemma FilterCons<T>(f: T -> bool, x: T, s: seq<T>)
    ensures Filter(f, [x] + s) == if f(x) then [x] + Filter(f, s) else Filter(f, s)
  {
    ConsParts(x, s);
    ConsParts(x, Filter(f, s));
  }

  /** Sorted, counted, and of rank `r` or more throughout. */
  ghost predicate Ordered(q: seq<Info>, r: nat) {
    Sorted(q) && AllCounted(q) && AtLeast(r, q)
  }

  lemma OrderedCons(x: Info, q: seq<Info>, r: nat)
    requires Ordered(q, Rank(x.phase)) && Counted(x) && r <= Rank(x.phase)
    ensures Ordered([x] + q, r)
  {
    SortedCons(x, q);
  }

  lemma OrderedTail(q: seq<Info>, r: nat)
    requires q != [] && Ordered(q, r)
    ensures Ordered(q[1..], Rank(q[0].phase)) && Counted(q[0]) && r <= Rank(q[0].phase) && Ordered(q[1..], r)
  {
    SortedTail(q);
  }

  lemma IdsCons(x: Info, q: seq<Info>)
    ensures Ids([x] + q) == [x.id] + Ids(q)
    ensures multiset(Ids([x] + q)) == multiset{x.id} + multiset(Ids(q))
  {
    ConsParts(x, q);
  }

  /** A sorted queue is what is on the wire followed by what is not. */
  lemma {:induction false} Splits(q: seq<Info>)
    requires Sorted(q)
    ensures q == Filter(NotWaiting, q) + Filter(IsWaiting, q)
  {
    if q != [] {
      if IsWaiting(q[0]) {
        AllWaiting(q);
      } else {
        SortedTail(q);
        Splits(q[1..]);
        HeadTail(q);
      }
    }
  }

  lemma {:induction false} FilterKeeps(f: Info -> bool, q: seq<Info>, r: nat)
    requires Ordered(q, r)
    ensures Ordered(Filter(f, q), r)
  {
    if q != [] {
      var x, t := q[0], q[1..];
      OrderedTail(q, r);
      HeadTail(q);
      FilterCons(f, x, t);
      if f(x) {
        FilterKeeps(f, t, Rank(x.phase));
        OrderedCons(x, Filter(f, t), r);
      } else {
        FilterKeeps(f, t, r);
      }
    }
  }

  lemma {:induction false} FilterSplitsIds(f: Info -> bool, g: Info -> bool, q: seq<Info>)
    requires forall i :: f(i) != g(i)
    ensures multiset(Ids(Filter(f, q))) + multiset(Ids(Filter(g, q))) == multiset(Ids(q))
  {
    if q != [] {
      var x, t := q[0], q[1..];
      FilterSplitsIds(f, g, t);
      HeadTail(q);
      IdsCons(x, t);
      IdsCons(x, Filter(f, t));
      IdsCons(x, Filter(g, t));
      ConsParts(x, Filter(f, t));
      ConsParts(x, Filter(g, t));
    }
  }

  lemma {:induction false} MapIds(f: Info -> Info, q: seq<Info>)
    requires forall i :: f(i).id == i.id
    ensures Ids(Map(f, q)) == Ids(q)
  {
    if q != [] {
      MapIds(f, q[1..]);
      ConsParts(f(q[0]), Map(f, q[1..]));
    }
  }

  // ---- Adding a request

  lemma {:induction false} InsertKeeps(q: seq<Info>, i: Info, r: nat)
    requires Ordered(q, r) && r <= 2 && IsWaiting(i) && Counted(i)
    ensures Ordered(InsertBeforeWaiting(q, i), r)
    ensures Filter(NotWaiting, InsertBeforeWaiting(q, i)) == Filter(NotWaiting, q)
  {
    if q == [] || IsWaiting(q[0]) {
      if q != [] {
        AllWaiting(q);
      }
      OrderedCons(i, q, r);
      FilterCons(NotWaiting, i, q);
    } else {
      var x, t := q[0], q[1..];
      OrderedTail(q, r);
      InsertKeeps(t, i, Rank(x.phase));
      OrderedCons(x, InsertBeforeWaiting(t, i), r);
      HeadTail(q);
      FilterCons(NotWaiting, x, t);
      FilterCons(NotWaiting, x, InsertBeforeWaiting(t, i));
    }
  }

  lemma SortedSnoc(q: seq<Info>, i: Info)
    requires Sorted(q) && AllCounted(q) && IsWaiting(i) && Counted(i)
    ensures Sorted(q + [i]) && AllCounted(q + [i])
  {
    var p := q + [i];
    forall j, k | 0 <= j < k < |p|
      ensures Rank(p[j].phase) <= Rank(p[k].phase)
    {
      assert k < |q| ==> Rank(q[j].phase) <= Rank(q[k].phase);
    }
  }

  lemma AppendKeeps(q: seq<Info>, i: Info)
    requires Sorted(q) && AllCounted(q) && IsWaiting(i) && Counted(i)
    ensures Sorted(q + [i]) && AllCounted(q + [i]) && Filter(NotWaiting, q + [i]) == Filter(NotWaiting, q)
  {
    SortedSnoc(q, i);
    FilterConcat(NotWaiting, q, [i]);
    FilterNone(NotWaiting, [i]);
  }

  lemma {:induction false} InsertAllAre(f: Info -> bool, q: seq<Info>, i: Info)
    requires AllAre(f, q) && f(i)
    ensures AllAre(f, Insert(q, i))
  {
    if i.req.helloPriority && q != [] && !IsWaiting(q[0]) {
      InsertAllAre(f, q[1..], i);
    }
  }

  lemma {:induction false} InsertIds(q: seq<Info>, i: Info)
    ensures multiset(Ids(Insert(q, i))) == multiset(Ids(q)) + multiset{i.id}
  {
    if !i.req.helloPriority {
      IdsConcat(q, [i]);
      IdsCons(i, []);
      assert [i] + [] == [i];
    } else if q == [] || IsWaiting(q[0]) {
      IdsCons(i, q);
    } else {
      InsertIds(q[1..], i);
      HeadTail(q);
      IdsCons(q[0], q[1..]);
      IdsCons(q[0], InsertBeforeWaiting(q[1..], i));
    }
  }

  /** A priority request goes exactly to the beginning of the waiting part. */
  lemma {:induction false} HelloLandsBeforeWaiting(q: seq<Info>, i: Info)
    requires i.req.helloPriority
    ensures var k := FirstWaiting(q);
            Insert(q, i) == q[..k] + [i] + q[k..]
  {
    if q != [] && !IsWaiting(q[0]) {
      HelloLandsBeforeWaiting(q[1..], i);
      var k := FirstWaiting(q[1..]);
      assert q[..k + 1] == [q[0]] + q[1..][..k];
    }
  }

  // ---- Staging and writing

  lemma {:induction false} StageSlots(q: seq<Info>)
    ensures AllSlots(Stage(q)) == AllSlots(q)
  {
    if q != [] {
      StageSlots(q[1..]);
      ConsParts(ToStaged(q[0]), Stage(q[1..]));
    }
  }

  /** Everything that was waiting is now owed, behind what was owed before. */
  lemma StageKeeps(q: seq<Info>)
    requires Sorted(q)
    ensures Sorted(Stage(q)) && Ids(Stage(q)) == Ids(q)
    ensures Owed(Stage(q)) == Owed(q) + AllSlots(Filter(IsWaiting, q))
  {
    MapIds(ToStaged, q);
    FilterAll(NotWaiting, Stage(q));
    StageSlots(q);
    Splits(q);
    AllSlotsConcat(Filter(NotWaiting, q), Filter(IsWaiting, q));
  }

  lemma OwedCons(i: Info, q: seq<Info>)
    ensures IsWaiting(i) || i.remaining == 0 ==> Owed([i] + q) == Owed(q)
    ensures !IsWaiting(i) ==> Owed([i] + q) == OwnSlots(i) + Owed(q)
    ensures Filter(IsWaiting, [i] + q) == if IsWaiting(i) then [i] + Filter(IsWaiting, q) else Filter(IsWaiting, q)
  {
    FilterCons(NotWaiting, i, q);
    FilterCons(IsWaiting, i, q);
    ConsParts(i, Filter(NotWaiting, q));
  }

  lemma WriteCons(i: Info, q: seq<Info>)
    ensures Write([i] + q) == if Answerless(i) then Write(q) else [ToWritten(i)] + Write(q)
  {
    FilterCons(NotAnswerless, i, q);
    ConsParts(i, Filter(NotAnswerless, q));
  }

  /** Exchanging the front entry for one with the same slots and the same place. */
  lemma SameFront(x: Info, t: seq<Info>, y: Info, w: seq<Info>)
    requires Owed(w) == Owed(t) && Filter(IsWaiting, w) == Filter(IsWaiting, t)
    requires if IsWaiting(x) then y == x else !IsWaiting(y) && OwnSlots(y) == OwnSlots(x)
    ensures Owed([y] + w) == Owed([x] + t) && Filter(IsWaiting, [y] + w) == Filter(IsWaiting, [x] + t)
  {
    OwedCons(x, t);
    OwedCons(y, w);
  }

  lemma {:induction false} WriteKeeps(q: seq<Info>)
    requires AllCounted(q)
    ensures Owed(Write(q)) == Owed(q)
    ensures Filter(IsWaiting, Write(q)) == Filter(IsWaiting, q)
  {
    if q != [] {
      var x, t := q[0], q[1..];
      assert Counted(x);
      WriteKeeps(t);
      HeadTail(q);
      WriteCons(x, t);
      if Answerless(x) {
        OwedCons(x, t);
      } else {
        SameFront(x, t, ToWritten(x), Write(t));
      }
    }
  }

  /** Marking as written keeps the order of the ranks. */
  lemma WrittenSorts(f: seq<Info>)
    requires Sorted(f) && AllCounted(f)
    ensures var w := Map(ToWritten, f);
            Sorted(w) && AllCounted(w) && forall i :: 0 <= i < |w| ==> !w[i].phase.Staged?
  {
    var w := Map(ToWritten, f);
    forall i, j | 0 <= i < j < |w|
      ensures Rank(w[i].phase) <= Rank(w[j].phase)
    {
      assert Rank(f[i].phase) <= Rank(f[j].phase);
    }
    forall i | 0 <= i < |w|
      ensures Counted(w[i])
    {
      assert Counted(f[i]);
    }
  }

  lemma WriteSorts(q: seq<Info>)
    requires Sorted(q) && AllCounted(q)
    ensures Sorted(Write(q)) && AllCounted(Write(q))
    ensures forall i :: 0 <= i < |Write(q)| ==> !Write(q)[i].phase.Staged?
  {
    FilterKeeps(NotAnswerless, q, 0);
    WrittenSorts(Filter(NotAnswerless, q));
  }

  lemma WriteIds(q: seq<Info>)
    ensures multiset(Ids(Write(q))) + multiset(Ids(Filter(Answerless, q))) == multiset(Ids(q))
  {
    MapIds(ToWritten, Filter(NotAnswerless, q));
    FilterSplitsIds(NotAnswerless, Answerless, q);
  }

  // ---- Cancelling

  lemma LoseKeeps(q: seq<Info>)
    requires Sorted(q) && AllCounted(q)
    ensures Sorted(Lose(q)) && AllCounted(Lose(q))
    ensures forall i :: 0 <= i < |Lose(q)| ==> IsWaiting(Lose(q)[i])
    ensures multiset(Ids(Lose(q))) + multiset(Ids(Filter(Perishes, q))) == multiset(Ids(q))
  {
    FilterKeeps(Survives, q, 0);
    MapIds(ToWaiting, Filter(Survives, q));
    FilterSplitsIds(Survives, Perishes, q);
  }

  lemma CancelKeeps(q: seq<Info>)
    requires Sorted(q) && AllCounted(q)
    ensures Sorted(Filter(NotWaiting, q)) && AllCounted(Filter(NotWaiting, q))
    ensures Filter(NotWaiting, Filter(NotWaiting, q)) == Filter(NotWaiting, q)
    ensures multiset(Ids(Filter(NotWaiting, q))) + multiset(Ids(Filter(IsWaiting, q))) == multiset(Ids(q))
  {
    FilterKeeps(NotWaiting, q, 0);
    FilterTwice(NotWaiting, q);
    FilterSplitsIds(NotWaiting, IsWaiting, q);
  }

  lemma {:induction false} FilterTwice<T>(f: T -> bool, s: seq<T>)
    ensures Filter(f, Filter(f, s)) == Filter(f, s)
  {
    if s != [] {
      FilterTwice(f, s[1..]);
      ConsParts(s[0], Filter(f, s[1..]));
    }
  }

  // ---- Removing one waiting request, and answering the front one

  /** At most one entry has this id, and it is waiting. */
  ghost predicate OnlyWaiting(q: seq<Info>, id: nat) {
    forall i :: 0 <= i < |q| && q[i].id == id ==> IsWaiting(q[i])
  }

  lemma {:induction false} RemoveKeeps(q: seq<Info>, id: nat)
    requires OnlyWaiting(q, id)
    ensures Filter(NotWaiting, Remove(q, id)) == Filter(NotWaiting, q)
  {
    if q != [] {
      RemoveKeeps(q[1..], id);
      ConsParts(q[0], Remove(q[1..], id));
    }
  }

  lemma {:induction false} RemoveIds(q: seq<Info>, id: nat)
    ensures multiset(Ids(Remove(q, id))) == multiset(Ids(q))[id := 0]
  {
    if q != [] {
      RemoveIds(q[1..], id);
      HeadTail(q);
      IdsCons(q[0], q[1..]);
      IdsCons(q[0], Remove(q[1..], id));
      ConsParts(q[0], Remove(q[1..], id));
    }
  }

  lemma AnswerSorts(q: seq<Info>, size: nat)
    requires q != [] && Sorted(q) && AllCounted(q) && q[0].remaining > 0
    ensures Sorted(Answer(q, size)) && AllCounted(Answer(q, size))
  {
    SortedTail(q);
    SortedCons(q[0].(remaining := q[0].remaining - 1, readSize := q[0].readSize + size), q[1..]);
  }

  /** Properties that do not look at the counts survive an answer. */
  lemma AnswerPhases(q: seq<Info>, size: nat)
    requires q != [] && q[0].remaining > 0
    ensures AllAre(IsWaiting, q) ==> AllAre(IsWaiting, Answer(q, size))
    ensures AllAre(NotWaiting, q) ==> AllAre(NotWaiting, Answer(q, size))
    ensures AllAre(NotStaged, q) ==> AllAre(NotStaged, Answer(q, size))
  {
  }

  function NextSlot(i: Info): Slot
    requires i.remaining <= i.req.expected
  {
    Slot(i.id, i.req.expected - i.remaining)
  }

  lemma FirstOwnSlot(i: Info, j: Info)
    requires 0 < i.remaining <= i.req.expected && j.id == i.id && j.req == i.req && j.remaining == i.remaining - 1
    ensures OwnSlots(i) == [NextSlot(i)] + OwnSlots(j)
  {
  }

  lemma AnswerOwesCons(x: Info, y: Info, t: seq<Info>)
    requires NotWaiting(x) && 0 < x.remaining <= x.req.expected
    requires y.phase == x.phase && y.id == x.id && y.req == x.req && y.remaining == x.remaining - 1
    ensures Owed([x] + t) == [NextSlot(x)] + Owed([y] + t)
    ensures x.remaining == 1 ==> Owed([y] + t) == Owed(t)
  {
    FirstOwnSlot(x, y);
    OwedCons(x, t);
    OwedCons(y, t);
    Regroup([NextSlot(x)], OwnSlots(y), Owed(t));
  }

  lemma AnswerOwes(q: seq<Info>, size: nat)
    requires q != [] && AllCounted(q) && NotWaiting(q[0]) && q[0].remaining > 0
    ensures q[0].remaining <= q[0].req.expected && Owed(q) == [NextSlot(q[0])] + Owed(Answer(q, size))
  {
    var x, t := q[0], q[1..];
    var y := x.(remaining := x.remaining - 1, readSize := x.readSize + size);
    assert Counted(x);
    assert Owed(q) == Owed([x] + t) by {
      HeadTail(q);
    }
    AnswerOwesCons(x, y, t);
    if x.remaining == 1 {
      assert Answer(q, size) == t;
    } else {
      assert Answer(q, size) == [y] + t;
    }
  }

  lemma AnswerIds(q: seq<Info>, size: nat)
    requires q != [] && q[0].remaining > 0
    ensures q[0].remaining > 1 ==> Ids(Answer(q, size)) == Ids(q)
    ensures q[0].remaining == 1 ==> multiset(Ids(q)) == multiset{q[0].id} + multiset(Ids(Answer(q, size)))
  {
    HeadTail(q);
    IdsCons(q[0], q[1..]);
    IdsCons(q[0].(remaining := q[0].remaining - 1, readSize := q[0].readSize + size), q[1..]);
  }
}
