// What an adapter refuses is reported, and is the last thing it is given.

module Refusals {
  import opened Resp3
  import opened Parsing

  /** An adapter's error is reported, and nothing is handed over after it: of all the nodes of
      this parse, the adapter refuses the last one if the result says so, and no other. */
  lemma {:induction false} RefusalIsReported(st: State, view: Bytes, acc: seq<Node>, rejects: Adapter)
    requires st.Good() && st.consumed <= |view|
    ensures var r := Parse(st, view, acc, rejects);
            && (r.status.Rejected? ==> |r.nodes| > |acc|)
            && forall k :: |acc| < k <= |r.nodes| ==> (rejects(r.nodes[..k]) <==> k == |r.nodes| && r.status.Rejected?)
    decreases |view| - st.consumed
  {
    if !st.Done() {
      var o := Consume(st, view);
      if o.Emit? {
        var acc', r := acc + [o.node], Parse(st, view, acc, rejects);
        assert acc' <= r.nodes && r.nodes[..|acc'|] == acc';
        if rejects(acc') {
          assert r.nodes[..|r.nodes|] == r.nodes;
        } else {
          RefusalIsReported(o.st, view, acc', rejects);
        }
      }
    }
  }

  lemma {:induction false} RefusedIsPrefix(st: State, view: Bytes, acc: seq<Node>, rejects: Adapter)
    requires st.Good() && st.consumed <= |view|
    ensures Parse(st, view, acc, rejects).nodes <= Parse(st, view, acc, AcceptAll).nodes
    decreases |view| - st.consumed
  {
    if !st.Done() {
      var o := Consume(st, view);
      if o.Emit? && !rejects(acc + [o.node]) {
        RefusedIsPrefix(o.st, view, acc + [o.node], rejects);
      }
    }
  }

  /** Of the nodes an adapter without errors would be given, this one refuses some. */
  ghost predicate RefusesAny(rejects: Adapter, all: seq<Node>, from: nat) {
    exists k :: from < k <= |all| && rejects(all[..k])
  }

  /** A parse is rejected if and only if the adapter refuses any node it would be given. */
  lemma RejectedExactly(st: State, view: Bytes, acc: seq<Node>, rejects: Adapter)
    requires st.Good() && st.consumed <= |view|
    ensures Parse(st, view, acc, rejects).status.Rejected? <==>
            RefusesAny(rejects, Parse(st, view, acc, AcceptAll).nodes, |acc|)
  {
    var r, all := Parse(st, view, acc, rejects), Parse(st, view, acc, AcceptAll).nodes;
    RefusalIsReported(st, view, acc, rejects);
    if r.status.Rejected? {
      RefusedIsPrefix(st, view, acc, rejects);
      assert all[..|r.nodes|] == r.nodes && r.nodes[..|r.nodes|] == r.nodes;
    } else {
      ParseUnrejected(st, view, acc, rejects);
    }
  }
}
