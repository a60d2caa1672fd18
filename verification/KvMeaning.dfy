/**
 What the key/value model means, without its step function: a Get or an Append
 with result must be answered with the text its key has, which is the value of
 the last Put on the key and the values of all Appends since.
 */
module KvMeaning {
  import opened Linearizability
  import opened KvModel

  predicate IsPut(op: KvOp, k: string) {
    op.input.key == k && op.input.op == 1
  }

  predicate IsAppend(op: KvOp, k: string) {
    op.input.key == k && op.input.op >= 2
  }

  /** The operation is answered with a value, which the model looks at. */
  predicate IsAnswered(op: KvOp) {
    op.input.op == 0 || op.input.op >= 3
  }

  /** How many operations of `order` there are up to the last Put on `k`, or 0 without one. */
  ghost function LastPut(ops: seq<KvOp>, order: seq<nat>, k: string): (p: nat)
    requires InRange(order, |ops|)
    ensures p <= |order| && (p > 0 ==> IsPut(ops[order[p - 1]], k))
    ensures forall i :: p <= i < |order| ==> !IsPut(ops[order[i]], k)
  {
    if order == [] then 0
    else if IsPut(ops[order[|order| - 1]], k) then |order|
    else LastPut(ops, order[..|order| - 1], k)
  }

  /** The values appended to `k`, one after the other. */
  ghost function Appended(ops: seq<KvOp>, order: seq<nat>, k: string): string
    requires InRange(order, |ops|)
  {
    if order == [] then ""
    else
      var last := ops[order[|order| - 1]];
      Appended(ops, order[..|order| - 1], k) + if IsAppend(last, k) then last.input.value else ""
  }

  ghost function TextOf(ops: seq<KvOp>, order: seq<nat>, k: string): string
    requires InRange(order, |ops|)
  {
    var p := LastPut(ops, order, k);
    (if p == 0 then "" else ops[order[p - 1]].input.value) + Appended(ops, order[p..], k)
  }

  lemma LastPutExtend(ops: seq<KvOp>, order: seq<nat>, id: nat, k: string)
    requires InRange(order, |ops|) && id < |ops|
    ensures InRange(order + [id], |ops|)
    ensures LastPut(ops, order + [id], k) == if IsPut(ops[id], k) then |order| + 1 else LastPut(ops, order, k)
  {
    assert (order + [id])[..|order|] == order;
  }

  lemma AppendedExtend(ops: seq<KvOp>, order: seq<nat>, id: nat, k: string)
    requires InRange(order, |ops|) && id < |ops|
    ensures InRange(order + [id], |ops|)
    ensures Appended(ops, order + [id], k) ==
              Appended(ops, order, k) + if IsAppend(ops[id], k) then ops[id].input.value else ""
  {
    assert (order + [id])[..|order|] == order;
  }

  lemma Joined(a: string, b: string, c: string)
    ensures (a + b) + c == a + (b + c) && b + "" == b
  {
  }

  lemma TextExtend(ops: seq<KvOp>, order: seq<nat>, id: nat, k: string)
    requires InRange(order, |ops|) && id < |ops|
    ensures InRange(order + [id], |ops|)
    ensures TextOf(ops, order + [id], k) == NextText(TextOf(ops, order, k), ops[id], k)
  {
    hide Appended, LastPut;
    var (next, p) := (order + [id], LastPut(ops, order, k));
    LastPutExtend(ops, order, id, k);
    if IsPut(ops[id], k) {
      NothingAppended(ops, k);
      assert next[|next|..] == [] && next[|next| - 1] == id;
      Joined("", ops[id].input.value, "");
    } else {
      assert next[p..] == order[p..] + [id];
      AppendedExtend(ops, order[p..], id, k);
      assert p > 0 ==> next[p - 1] == order[p - 1];
      var start := if p == 0 then "" else ops[order[p - 1]].input.value;
      Joined(start, Appended(ops, order[p..], k), if IsAppend(ops[id], k) then ops[id].input.value else "");
      Joined("", Appended(ops, order[p..], k), "");
    }
  }

  lemma NothingAppended(ops: seq<KvOp>, k: string)
    ensures Appended(ops, [], k) == ""
  {
  }

  /** The text of `k` after one more operation. */
  function NextText(text: string, op: KvOp, k: string): string {
    if IsPut(op, k) then op.input.value else if IsAppend(op, k) then text + op.input.value else text
  }

  lemma StepIsText(st: Store, op: KvOp, k: string)
    ensures Lookup(After(WHOLE_STORE, st, op), k) == NextText(Lookup(st, k), op, k)
  {
  }

  /** A run of the store leaves each key with its text. */
  lemma {:induction false} RunIsText(ops: seq<KvOp>, order: seq<nat>, k: string)
    requires InRange(order, |ops|)
    ensures Lookup(Run(WHOLE_STORE, ops, order), k) == TextOf(ops, order, k)
  {
    if order != [] {
      hide *;
      var front, last := order[..|order| - 1], order[|order| - 1];
      assert order == front + [last];
      PrefixInRange(order, |ops|);
      RunIsText(ops, front, k);
      TextExtend(ops, front, last, k);
      RunExtend(WHOLE_STORE, ops, front, last);
      StepIsText(Run(WHOLE_STORE, ops, front), ops[last], k);
    }
  }

  lemma PrefixInRange(order: seq<nat>, n: nat)
    requires InRange(order, n) && order != []
    ensures InRange(order[..|order| - 1], n) && order[|order| - 1] < n
  {
  }

  /** An order is legal if and only if every answer is the text of its key at that point. */
  lemma LegalMeans(ops: seq<KvOp>, order: seq<nat>)
    requires InRange(order, |ops|)
    ensures Legal(WHOLE_STORE, ops, order) <==>
              forall i :: 0 <= i < |order| && IsAnswered(ops[order[i]]) ==>
                ops[order[i]].output.value == TextOf(ops, order[..i], ops[order[i]].input.key)
  {
    hide TextOf, Run;
    forall i | 0 <= i < |order|
      ensures Accepts(WHOLE_STORE, Run(WHOLE_STORE, ops, order[..i]), ops[order[i]]) <==>
                (IsAnswered(ops[order[i]]) ==>
                   ops[order[i]].output.value == TextOf(ops, order[..i], ops[order[i]].input.key))
    {
      RunIsText(ops, order[..i], ops[order[i]].input.key);
    }
  }

  /** The operation with another answer. */
  function Answering(op: KvOp, value: string): KvOp {
    Operation(op.clientId, op.input, op.call, KvOutput(value), op.ret)
  }

  lemma {:induction false} SameInputsSameText(a: seq<KvOp>, b: seq<KvOp>, order: seq<nat>, k: string)
    requires InRange(order, |a|) && |b| == |a| && forall i :: 0 <= i < |a| ==> b[i].input == a[i].input
    ensures TextOf(b, order, k) == TextOf(a, order, k)
  {
    if order != [] {
      var front, last := order[..|order| - 1], order[|order| - 1];
      assert order == front + [last];
      SameInputsSameText(a, b, front, k);
      TextExtend(a, front, last, k);
      TextExtend(b, front, last, k);
    }
  }

  /** In a legal order no answer can be another one. */
  lemma AnswersAreDetermined(ops: seq<KvOp>, order: seq<nat>, i: nat, wrong: string)
    requires InRange(order, |ops|) && Legal(WHOLE_STORE, ops, order)
    requires i < |order| && IsAnswered(ops[order[i]]) && wrong != ops[order[i]].output.value
    ensures !Legal(WHOLE_STORE, ops[order[i] := Answering(ops[order[i]], wrong)], order)
  {
    hide TextOf, Legal;
    var changed := ops[order[i] := Answering(ops[order[i]], wrong)];
    LegalMeans(ops, order);
    LegalMeans(changed, order);
    SameInputsSameText(ops, changed, order[..i], ops[order[i]].input.key);
    assert IsAnswered(changed[order[i]]);
  }
}
