/**
 Many clerks and one server over a network that drops requests and replies.
 A clerk makes one Put or Append at a time and repeats it until a call
 succeeds; then it asks the server to forget the saved reply.  Gets may run at
 any time.  A call that has returned is never executed later.
 */
module KvClerks {
  import opened Options
  import opened Linearizability
  import opened KvModel
  import opened KvServer

  /** Where an operation is: waiting for the clerk's lock, between calls, or in one of the parts of a call. */
  datatype Phase =
    | Locking
    | Ready
    | Sent
    | Executed(reply: string)
    | Deleting(reply: string)
    | Deleted(reply: string)
    | Done(reply: string, ret: int)

  /** `applied`, `result` and `point` record whether, with what result and when the operation took effect. */
  datatype Op = Op(
    clerk: nat, input: KvInput, seqNo: int, call: int, phase: Phase, applied: bool, result: string, point: int)

  /** `busy` is the operation that holds the clerk's lock. */
  datatype ClerkState = ClerkState(seqNo: int, busy: Option<nat>)

  /** `order` lists the operations that took effect, in the order they did. */
  datatype World = World(server: Server, clerks: seq<ClerkState>, ops: seq<Op>, now: int, order: seq<nat>)

  datatype Action =
    | InvokeGet(clerk: nat, key: string)
    | InvokeWrite(clerk: nat, isAppend: bool, key: string, value: string)
    | Acquire(id: nat)
    | Send(id: nat)
    | LoseRequest(id: nat)
    | Execute(id: nat)
    | LoseReply(id: nat)
    | Receive(id: nat)
    | ExecuteDelete(id: nat)
    | Return(id: nat)

  predicate IsWrite(op: Op) {
    op.input.op != 0
  }

  predicate Active(op: Op) {
    IsWrite(op) && op.phase != Locking && !op.phase.Done?
  }

  function ArgsOf(ids: seq<int>, op: Op): PutAppendArgs
    requires op.clerk < |ids|
  {
    PutAppendArgs(op.input.key, op.input.value, op.seqNo, ids[op.clerk])
  }

  ghost predicate Init(ids: seq<int>, s: World) {
    && s == World(Server(map[], map[], map[]), s.clerks, [], 0, [])
    && |s.clerks| == |ids| && forall c :: 0 <= c < |ids| ==> s.clerks[c] == ClerkState(0, None)
  }

  ghost predicate Enabled(s: World, a: Action) {
    match a
    case InvokeGet(c, _) => c < |s.clerks|
    case InvokeWrite(c, _, _, _) => c < |s.clerks|
    case Acquire(i) =>
      && i < |s.ops| && s.ops[i].phase == Locking && s.ops[i].clerk < |s.clerks|
      && s.clerks[s.ops[i].clerk].busy.None?
    case Send(i) => i < |s.ops| && s.ops[i].phase == Ready
    case LoseRequest(i) => i < |s.ops| && s.ops[i].phase == Sent
    case Execute(i) => i < |s.ops| && s.ops[i].phase == Sent
    case LoseReply(i) => i < |s.ops| && s.ops[i].phase.Executed?
    case Receive(i) => i < |s.ops| && s.ops[i].phase.Executed?
    case ExecuteDelete(i) => i < |s.ops| && s.ops[i].phase.Deleting?
    case Return(i) =>
      i < |s.ops| && (s.ops[i].phase.Deleting? || s.ops[i].phase.Deleted?) && s.ops[i].clerk < |s.clerks|
  }

  function Without(order: seq<nat>, id: nat): (r: seq<nat>)
    ensures id !in r && forall x :: x in r ==> x in order
  {
    if order == [] then []
    else
      var front, last := order[..|order| - 1], order[|order| - 1];
      if last == id then Without(front, id) else Without(front, id) + [last]
  }

  /** The operation takes effect now, with `result`. */
  ghost function TakesEffect(s: World, i: nat, result: string): World
    requires i < |s.ops|
  {
    s.(ops := s.ops[i := s.ops[i].(phase := Executed(result), applied := true, result := result, point := s.now)],
       order := s.order + [i])
  }

  ghost function WithPhase(s: World, i: nat, phase: Phase): World
    requires i < |s.ops|
  {
    s.(ops := s.ops[i := s.ops[i].(phase := phase)])
  }

  ghost function Effect(ids: seq<int>, s: World, a: Action): World
    requires Enabled(s, a) && |ids| == |s.clerks| && forall i :: 0 <= i < |s.ops| ==> s.ops[i].clerk < |ids|
  {
    match a
    case InvokeGet(c, key) =>
      s.(ops := s.ops + [Op(c, KvInput(0, key, ""), 0, s.now, Ready, false, "", 0)])
    case InvokeWrite(c, isAppend, key, value) =>
      s.(ops := s.ops + [Op(c, KvInput(if isAppend then 3 else 1, key, value), 0, s.now, Locking, false, "", 0)])
    case Acquire(i) =>
      var c := s.ops[i].clerk;
      var seqNo := s.clerks[c].seqNo + 1;
      s.(ops := s.ops[i := s.ops[i].(phase := Ready, seqNo := seqNo)],
        clerks := s.clerks[c := ClerkState(seqNo, Some(i))])
    case Send(i) => WithPhase(s, i, Sent)
    case LoseRequest(i) => WithPhase(s, i, Ready)
    case Execute(i) =>
      var op := s.ops[i];
      if !IsWrite(op) then TakesEffect(s, i, ValueOf(s.server, op.input.key))
      else
        var args := ArgsOf(ids, op);
        var (server, reply) := Serve(s.server, op.input.op != 1, args);
        if LastSeq(s.server, args.client) < args.seqNo == LastSeq(server, args.client)
        then TakesEffect(s, i, reply).(server := server)
        else WithPhase(s, i, Executed(reply)).(server := server)
    case LoseReply(i) =>
      if IsWrite(s.ops[i]) then WithPhase(s, i, Ready)
      else s.(ops := s.ops[i := s.ops[i].(phase := Ready, applied := false)], order := Without(s.order, i))
    case Receive(i) =>
      var reply := s.ops[i].phase.reply;
      WithPhase(s, i, if IsWrite(s.ops[i]) then Deleting(reply) else Done(Clean(reply), s.now))
    case ExecuteDelete(i) =>
      WithPhase(s, i, Deleted(s.ops[i].phase.reply)).(server := Forget(s.server, ids[s.ops[i].clerk]))
    case Return(i) =>
      var c := s.ops[i].clerk;
      WithPhase(s, i, Done(s.ops[i].phase.reply, s.now)).(clerks := s.clerks[c := s.clerks[c].(busy := None)])
  }

  ghost predicate Known(ids: seq<int>, s: World) {
    |ids| == |s.clerks| && forall i :: 0 <= i < |s.ops| ==> s.ops[i].clerk < |ids|
  }

  ghost predicate Next(ids: seq<int>, s: World, a: Action, t: World) {
    Enabled(s, a) && Known(ids, s) && t == Effect(ids, s, a).(now := s.now + 1)
  }

  // ---------------------------------------------------------------------
  // What holds of each operation and each clerk

  ghost predicate TimesOk(s: World, op: Op) {
    && op.call < s.now && (op.applied ==> op.call < op.point < s.now)
    && (op.phase.Done? ==> op.applied && op.point < op.phase.ret < s.now)
  }

  ghost predicate GetOk(op: Op) {
    && (op.applied <==> op.phase.Executed? || op.phase.Done?)
    && match op.phase
       case Ready => true
       case Sent => true
       case Executed(reply) => reply == op.result
       case Done(reply, _) => reply == Clean(op.result)
       case _ => false
  }

  /**
   The server has executed a write exactly when it is applied, and then keeps its result
   until it is told to forget.
   */
  ghost predicate WriteOk(ids: seq<int>, s: World, i: nat)
    requires i < |s.ops| && s.ops[i].clerk < |ids| == |s.clerks|
  {
    var op := s.ops[i];
    var (c, client) := (op.clerk, ids[op.clerk]);
    && (op.phase == Locking ==> !op.applied)
    && (Active(op) ==>
          && s.clerks[c] == ClerkState(op.seqNo, Some(i))
          && LastSeq(s.server, client) == (if op.applied then op.seqNo else op.seqNo - 1)
          && (op.applied && !op.phase.Deleted? ==> RecordOf(s.server, client) == op.result)
          && (op.phase.Deleted? ==> client !in s.server.record))
    && match op.phase
       case Executed(reply) => op.applied && reply == op.result
       case Deleting(reply) => op.applied && reply == op.result
       case Deleted(reply) => op.applied && reply == op.result
       case Done(reply, _) => op.applied && reply == op.result
       case _ => true
  }

  ghost predicate OpOk(ids: seq<int>, s: World, i: nat)
    requires i < |s.ops|
  {
    var op := s.ops[i];
    && op.clerk < |ids| == |s.clerks| && op.input.op in {0, 1, 3} && TimesOk(s, op)
    && (if IsWrite(op) then WriteOk(ids, s, i) else GetOk(op))
  }

  ghost predicate ClerkOk(ids: seq<int>, s: World, c: nat)
    requires c < |ids| == |s.clerks|
  {
    match s.clerks[c].busy
    case None => LastSeq(s.server, ids[c]) == s.clerks[c].seqNo
    case Some(i) => i < |s.ops| && s.ops[i].clerk == c && Active(s.ops[i])
  }

  ghost predicate ClerksInv(ids: seq<int>, s: World) {
    && Distinct(ids) && |ids| == |s.clerks| && s.now >= 0
    && (forall i: nat :: i < |s.ops| ==> OpOk(ids, s, i))
    && (forall c: nat :: c < |ids| ==> ClerkOk(ids, s, c))
  }

  /** Nothing changed for the clerks other than `c`. */
  ghost predicate Elsewhere(ids: seq<int>, s: World, t: World, c: nat) {
    && |t.clerks| == |s.clerks| == |ids| && t.now == s.now + 1
    && forall d :: 0 <= d < |ids| && d != c ==>
         && t.clerks[d] == s.clerks[d]
         && LastSeq(t.server, ids[d]) == LastSeq(s.server, ids[d])
         && RecordOf(t.server, ids[d]) == RecordOf(s.server, ids[d])
         && (ids[d] in t.server.record ==> ids[d] in s.server.record)
  }

  /** An untouched operation stays as it is, if its clerk is untouched or it holds no lock. */
  lemma OtherOp(ids: seq<int>, s: World, t: World, c: nat, j: nat)
    requires j < |s.ops| && j < |t.ops| && t.ops[j] == s.ops[j] && OpOk(ids, s, j) && Elsewhere(ids, s, t, c)
    requires s.ops[j].clerk == c ==> !Active(s.ops[j])
    ensures OpOk(ids, t, j)
  {
    hide LastSeq, RecordOf;
  }

  lemma OtherClerk(ids: seq<int>, s: World, t: World, c: nat, d: nat, i: nat)
    requires d < |ids| == |s.clerks| && d != c && ClerkOk(ids, s, d) && Elsewhere(ids, s, t, c)
    requires |t.ops| >= |s.ops| && forall j :: 0 <= j < |s.ops| && j != i ==> t.ops[j] == s.ops[j]
    requires i < |s.ops| ==> s.ops[i].clerk == c
    ensures ClerkOk(ids, t, d)
  {
    hide LastSeq, RecordOf;
  }

  /** The step of one operation of clerk `c`: it is right afterwards, and no other operation of `c` holds the lock. */
  lemma OneOpStep(ids: seq<int>, s: World, t: World, c: nat, i: nat)
    requires ClerksInv(ids, s) && c < |ids| && Elsewhere(ids, s, t, c) && i <= |s.ops|
    requires |t.ops| == (if i < |s.ops| then |s.ops| else i + 1) && (i < |s.ops| ==> s.ops[i].clerk == c)
    requires forall j :: 0 <= j < |s.ops| && j != i ==> t.ops[j] == s.ops[j]
    requires forall j :: 0 <= j < |s.ops| && j != i && s.ops[j].clerk == c ==> !Active(s.ops[j])
    requires OpOk(ids, t, i) && ClerkOk(ids, t, c)
    ensures ClerksInv(ids, t)
  {
    hide OpOk, ClerkOk, Active;
    forall j: nat | j < |t.ops|
      ensures OpOk(ids, t, j)
    {
      if j != i {
        OtherOp(ids, s, t, c, j);
      }
    }
    forall d: nat | d < |ids|
      ensures ClerkOk(ids, t, d)
    {
      if d != c {
        OtherClerk(ids, s, t, c, d, i);
      }
    }
  }

  /** Only one operation of a clerk holds its lock. */
  lemma OneActive(ids: seq<int>, s: World, i: nat)
    requires ClerksInv(ids, s) && i < |s.ops|
    requires s.ops[i].clerk < |s.clerks| && (Active(s.ops[i]) || s.clerks[s.ops[i].clerk].busy.None?)
    ensures forall j :: 0 <= j < |s.ops| && j != i && s.ops[j].clerk == s.ops[i].clerk ==> !Active(s.ops[j])
  {
    hide LastSeq, RecordOf, ClerkOk;
    assert OpOk(ids, s, i);
    forall j: nat | j < |s.ops| && j != i && s.ops[j].clerk == s.ops[i].clerk
      ensures !Active(s.ops[j])
    {
      assert OpOk(ids, s, j);
    }
  }

  /** A step of one operation that leaves the server and the clerks alone. */
  lemma PassiveStep(ids: seq<int>, s: World, t: World, i: nat)
    requires ClerksInv(ids, s) && i <= |s.ops| && t.server == s.server && t.clerks == s.clerks && t.now == s.now + 1
    requires |t.ops| == if i < |s.ops| then |s.ops| else i + 1
    requires forall j :: 0 <= j < |s.ops| && j != i ==> t.ops[j] == s.ops[j]
    requires i < |s.ops| ==> t.ops[i].clerk == s.ops[i].clerk && (Active(t.ops[i]) <==> Active(s.ops[i]))
    requires OpOk(ids, t, i)
    ensures ClerksInv(ids, t)
  {
    hide OpOk, Active, LastSeq;
    forall j: nat | j < |t.ops|
      ensures OpOk(ids, t, j)
    {
      if j != i {
        LaterOp(ids, s, t, j);
      }
    }
    forall d: nat | d < |ids|
      ensures ClerkOk(ids, t, d)
    {
      assert ClerkOk(ids, s, d);
    }
  }

  lemma LaterOp(ids: seq<int>, s: World, t: World, j: nat)
    requires j < |s.ops| && j < |t.ops| && t.ops[j] == s.ops[j] && OpOk(ids, s, j)
    requires t.server == s.server && t.clerks == s.clerks && t.now == s.now + 1
    ensures OpOk(ids, t, j)
  {
    hide LastSeq, RecordOf;
  }

  // ---------------------------------------------------------------------
  // The steps

  lemma ExecuteWriteOk(ids: seq<int>, s: World, i: nat)
    requires ClerksInv(ids, s) && Known(ids, s) && Enabled(s, Execute(i)) && IsWrite(s.ops[i])
    ensures var op := s.ops[i];
            var (server, reply) := Serve(s.server, op.input.op != 1, ArgsOf(ids, op));
            && LastSeq(server, ids[op.clerk]) == op.seqNo && RecordOf(server, ids[op.clerk]) == reply
            && (forall d :: 0 <= d < |ids| && d != op.clerk ==>
                  && LastSeq(server, ids[d]) == LastSeq(s.server, ids[d])
                  && RecordOf(server, ids[d]) == RecordOf(s.server, ids[d])
                  && (ids[d] in server.record ==> ids[d] in s.server.record))
            && (if op.applied then server == s.server && reply == op.result
                else LastSeq(s.server, ids[op.clerk]) == op.seqNo - 1)
  {
    assert OpOk(ids, s, i);
  }

  lemma ExecuteStep(ids: seq<int>, s: World, i: nat, t: World)
    requires ClerksInv(ids, s) && Next(ids, s, Execute(i), t)
    ensures ClerksInv(ids, t)
  {
    assert OpOk(ids, s, i);
    if !IsWrite(s.ops[i]) {
      hide ClerksInv;
      PassiveStep(ids, s, t, i);
    } else {
      ExecuteWriteOk(ids, s, i);
      OneActive(ids, s, i);
      hide ClerksInv, Serve, LastSeq, RecordOf;
      OneOpStep(ids, s, t, s.ops[i].clerk, i);
    }
  }

  lemma DeleteStep(ids: seq<int>, s: World, i: nat, t: World)
    requires ClerksInv(ids, s) && Next(ids, s, ExecuteDelete(i), t)
    ensures ClerksInv(ids, t)
  {
    assert OpOk(ids, s, i);
    OneActive(ids, s, i);
    OneOpStep(ids, s, t, s.ops[i].clerk, i);
  }

  lemma LockStep(ids: seq<int>, s: World, a: Action, t: World)
    requires ClerksInv(ids, s) && (a.Acquire? || a.Return?) && Next(ids, s, a, t)
    ensures ClerksInv(ids, t)
  {
    assert OpOk(ids, s, a.id);
    assert ClerkOk(ids, s, s.ops[a.id].clerk);
    OneActive(ids, s, a.id);
    hide ClerksInv, LastSeq, RecordOf;
    OneOpStep(ids, s, t, s.ops[a.id].clerk, a.id);
  }

  lemma QuietStep(ids: seq<int>, s: World, a: Action, t: World)
    requires ClerksInv(ids, s) && Next(ids, s, a, t)
    requires a.InvokeGet? || a.InvokeWrite? || a.Send? || a.LoseRequest? || a.LoseReply? || a.Receive?
    ensures ClerksInv(ids, t)
  {
    if a.InvokeGet? || a.InvokeWrite? {
      hide ClerksInv, LastSeq, RecordOf;
      PassiveStep(ids, s, t, |s.ops|);
    } else {
      assert OpOk(ids, s, a.id);
      hide ClerksInv, LastSeq, RecordOf;
      PassiveStep(ids, s, t, a.id);
    }
  }

  lemma NextClerks(ids: seq<int>, s: World, a: Action, t: World)
    requires ClerksInv(ids, s) && Next(ids, s, a, t)
    ensures ClerksInv(ids, t)
  {
    hide ClerksInv, Next;
    match a
    case Execute(i) => ExecuteStep(ids, s, i, t);
    case ExecuteDelete(i) => DeleteStep(ids, s, i, t);
    case Acquire(i) => LockStep(ids, s, a, t);
    case Return(i) => LockStep(ids, s, a, t);
    case _ => QuietStep(ids, s, a, t);
  }
}
