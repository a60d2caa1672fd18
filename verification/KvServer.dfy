/**
 The key/value server and its clerk.  The server executes the Put or Append
 that is next for a client and remembers the reply; anything else of that
 client it answers from memory.
 */
module KvServer {

  const ERR_VERSION: string := "Error Version"
  const ERR_NO_KEY: string := "Error NoKey"

  datatype PutAppendArgs = PutAppendArgs(key: string, value: string, seqNo: int, client: int)

  datatype Server = Server(value: map<string, string>, lastSeq: map<int, int>, record: map<int, string>)

  function ValueOf(s: Server, key: string): string {
    if key in s.value then s.value[key] else ""
  }

  function LastSeq(s: Server, client: int): int {
    if client in s.lastSeq then s.lastSeq[client] else 0
  }

  function RecordOf(s: Server, client: int): string {
    if client in s.record then s.record[client] else ""
  }

  /** A Put or Append executed, and its reply. */
  function Execution(s: Server, isAppend: bool, args: PutAppendArgs): (Server, string) {
    var before := ValueOf(s, args.key);
    var reply := if isAppend then before else args.value;
    var after := if isAppend then before + args.value else args.value;
    (Server(s.value[args.key := after], s.lastSeq[args.client := args.seqNo], s.record[args.client := reply]), reply)
  }

  /** What the server does with a Put or Append, and its reply. */
  function Serve(s: Server, isAppend: bool, args: PutAppendArgs): (Server, string) {
    var last := LastSeq(s, args.client);
    if last >= args.seqNo then (s, RecordOf(s, args.client))
    else if last + 1 != args.seqNo then (s, "")
    else Execution(s, isAppend, args)
  }

  function Forget(s: Server, client: int): Server {
    s.(record := s.record - {client})
  }

  /** What `Clerk.Get` makes of a reply. */
  function Clean(reply: string): string {
    if reply == ERR_NO_KEY || reply == ERR_VERSION then "" else reply
  }

  /** A Get reports the value read exactly when that value is not one of the two error strings. */
  lemma CleanIsExact(reply: string)
    ensures Clean(reply) == reply <==> reply != ERR_NO_KEY && reply != ERR_VERSION
  {
    assert ERR_NO_KEY[0] == 'E' && ERR_VERSION[0] == 'E';
  }

  class KVServer {
    var value: map<string, string>
    var lastSeq: map<int, int>
    var record: map<int, string>

    function View(): Server
      reads this
    {
      Server(value, lastSeq, record)
    }

    constructor StartKVServer()
      ensures View() == Server(map[], map[], map[])
    {
      value, lastSeq, record := map[], map[], map[];
    }

    method Get(key: string) returns (reply: string)
      ensures reply == ValueOf(View(), key)
    {
      if key in value {
        reply := value[key];
      } else {
        reply := "";
      }
    }

    method Put(args: PutAppendArgs) returns (reply: string)
      modifies this
      ensures (View(), reply) == Serve(old(View()), false, args)
    {
      if LastSeq(View(), args.client) >= args.seqNo {
        return RecordOf(View(), args.client);
      }
      if LastSeq(View(), args.client) + 1 != args.seqNo {
        return "";
      }
      reply := args.value;
      lastSeq := lastSeq[args.client := args.seqNo];
      record := record[args.client := args.value];
      value := value[args.key := args.value];
    }

    method Append(args: PutAppendArgs) returns (reply: string)
      modifies this
      ensures (View(), reply) == Serve(old(View()), true, args)
    {
      if LastSeq(View(), args.client) >= args.seqNo {
        return RecordOf(View(), args.client);
      }
      if LastSeq(View(), args.client) + 1 != args.seqNo {
        return "";
      }
      lastSeq := lastSeq[args.client := args.seqNo];
      if args.key in value {
        var exists_ := value[args.key];
        record := record[args.client := exists_];
        reply := exists_;
        value := value[args.key := exists_ + args.value];
      } else {
        record := record[args.client := ""];
        reply := "";
        value := value[args.key := args.value];
        assert "" + args.value == args.value;
      }
    }

    method Delete(client: int)
      modifies this
      ensures View() == Forget(old(View()), client)
    {
      record := record - {client};
    }
  }

  // ---------------------------------------------------------------------
  // Calls of other clients

  /** What another client may ask for that changes the server. */
  datatype Request = Write(isAppend: bool, args: PutAppendArgs) | Deletion(client: int)

  function Asker(request: Request): int {
    match request
    case Write(_, args) => args.client
    case Deletion(client) => client
  }

  function Served(s: Server, request: Request): Server {
    match request
    case Write(isAppend, args) => Serve(s, isAppend, args).0
    case Deletion(client) => Forget(s, client)
  }

  /** The server after `requests`. */
  function ServeAll(s: Server, requests: seq<Request>): Server {
    if requests == [] then s
    else Served(ServeAll(s, requests[..|requests| - 1]), requests[|requests| - 1])
  }

  function Flat(gaps: seq<seq<Request>>): seq<Request> {
    if gaps == [] then [] else Flat(gaps[..|gaps| - 1]) + gaps[|gaps| - 1]
  }

  predicate FromOthers(requests: seq<Request>, client: int) {
    forall i :: 0 <= i < |requests| ==> Asker(requests[i]) != client
  }

  lemma {:induction false} ServeAllJoin(s: Server, a: seq<Request>, b: seq<Request>)
    ensures ServeAll(s, a + b) == ServeAll(ServeAll(s, a), b)
  {
    if b == [] {
      assert a + b == a;
    } else {
      ServeAllJoin(s, a, b[..|b| - 1]);
      assert (a + b)[..|a + b| - 1] == a + b[..|b| - 1];
    }
  }

  /**
   A write with the next number of its client takes effect; one with an earlier
   number changes nothing and is answered with the saved reply; one too far ahead
   changes nothing and gets no answer.
   */
  lemma ServesOnlyNext(s: Server, isAppend: bool, args: PutAppendArgs)
    ensures var (t, reply) := Serve(s, isAppend, args);
            var last := LastSeq(s, args.client);
            && (args.seqNo == last + 1 ==> TookEffect(s, [], isAppend, args, [], t, reply))
            && (args.seqNo <= last ==> t == s && reply == RecordOf(s, args.client))
            && (args.seqNo > last + 1 ==> t == s && reply == "")
  {
  }

  /** The numbers of the writes of a client, in the order of arrival. */
  function NumbersOf(requests: seq<Request>, client: int): seq<int> {
    if requests == [] then []
    else
      var last := requests[|requests| - 1];
      NumbersOf(requests[..|requests| - 1], client)
        + if last.Write? && last.args.client == client then [last.args.seqNo] else []
  }

  /** How far one comes from `n` by taking every number that is the next one. */
  function CountUp(n: int, numbers: seq<int>): int {
    if numbers == [] then n
    else
      var m := CountUp(n, numbers[..|numbers| - 1]);
      if numbers[|numbers| - 1] == m + 1 then m + 1 else m
  }

  /**
   Whatever arrives, repeated, out of order or with gaps: a client's writes take
   effect in the order of their numbers.
   */
  lemma {:induction false} NumbersCountUp(s: Server, requests: seq<Request>, client: int)
    ensures LastSeq(ServeAll(s, requests), client) == CountUp(LastSeq(s, client), NumbersOf(requests, client))
  {
    if requests != [] {
      var front, last := requests[..|requests| - 1], requests[|requests| - 1];
      NumbersCountUp(s, front, client);
      var numbers := NumbersOf(front, client);
      if last.Write? && last.args.client == client {
        assert (numbers + [last.args.seqNo])[..|numbers|] == numbers;
      } else {
        assert numbers + [] == numbers;
      }
    }
  }

  /** What the server knows of a client does not depend on other clients' calls. */
  lemma {:induction false} OthersKeep(s: Server, requests: seq<Request>, client: int)
    requires FromOthers(requests, client)
    ensures LastSeq(ServeAll(s, requests), client) == LastSeq(s, client)
    ensures RecordOf(ServeAll(s, requests), client) == RecordOf(s, client)
  {
    if requests != [] {
      OthersKeep(s, requests[..|requests| - 1], client);
    }
  }

  /** The call took effect once, after `before` and before `later` of the other clients' requests. */
  predicate TookEffect(
    s: Server, before: seq<Request>, isAppend: bool, args: PutAppendArgs, later: seq<Request>, t: Server, reply: string)
  {
    var here := ServeAll(s, before);
    var found := if args.key in here.value then here.value[args.key] else "";
    && reply == (if isAppend then found else args.value)
    && t == ServeAll(
         Server(here.value[args.key := if isAppend then found + args.value else args.value],
                here.lastSeq[args.client := args.seqNo], here.record[args.client := reply]), later)
  }

  lemma FlatExtend(gaps: seq<seq<Request>>, i: nat)
    requires i < |gaps|
    ensures Flat(gaps[..i + 1]) == Flat(gaps[..i]) + gaps[i]
  {
    assert gaps[..i + 1][..i] == gaps[..i];
  }

  /** How a call fails: the request is dropped before the handler, or the reply after it. */
  datatype Loss = RequestLost | ReplyLost

  class Clerk {
    const client: int
    var seqNo: int

    constructor MakeClerk(client: int)
      ensures this.client == client && seqNo == 0
    {
      this.client, seqNo := client, 0;
    }

    /** The calls other clients make while this one waits to try again. */
    method Sleep(server: KVServer, requests: seq<Request>)
      modifies server
      ensures server.View() == ServeAll(old(server.View()), requests)
    {
      ghost var before := server.View();
      for i := 0 to |requests|
        invariant server.View() == ServeAll(before, requests[..i])
      {
        match requests[i] {
          case Write(isAppend, args) => var dropped := Attempt(server, isAppend, args);
          case Deletion(other) => server.Delete(other);
        }
        assert requests[..i + 1][..i] == requests[..i];
      }
      assert requests[..|requests|] == requests;
    }

    /**
     The retry loop of a Get; `losses` are the failures before the first call
     that succeeds, and `gaps` what other clients do after each of them.
     */
    method Get(server: KVServer, key: string, losses: seq<Loss>, gaps: seq<seq<Request>>) returns (reply: string)
      requires |gaps| == |losses|
      modifies server
      ensures server.View() == ServeAll(old(server.View()), Flat(gaps))
      ensures reply == Clean(ValueOf(server.View(), key))
    {
      ghost var before := server.View();
      var tries := 0;
      while tries < |losses|
        invariant tries <= |losses| && server.View() == ServeAll(before, Flat(gaps[..tries]))
      {
        if losses[tries] == ReplyLost {
          var dropped := server.Get(key);
        }
        Sleep(server, gaps[tries]);
        ServeAllJoin(before, Flat(gaps[..tries]), gaps[tries]);
        FlatExtend(gaps, tries);
        tries := tries + 1;
      }
      assert gaps[..|losses|] == gaps;
      var value := server.Get(key);
      if value == ERR_NO_KEY || value == ERR_VERSION {
        return "";
      }
      return value;
    }

    method Attempt(server: KVServer, isAppend: bool, args: PutAppendArgs) returns (reply: string)
      modifies server
      ensures (server.View(), reply) == Serve(old(server.View()), isAppend, args)
    {
      if isAppend {
        reply := server.Append(args);
      } else {
        reply := server.Put(args);
      }
    }

    /**
     However often the call fails and whatever other clients do meanwhile, the
     server executes it once and the clerk gets the reply of that execution.
     */
    method PutAppend(
      server: KVServer, key: string, value: string, isAppend: bool, losses: seq<Loss>, gaps: seq<seq<Request>>,
      deleteLost: bool)
      returns (reply: string, ghost earlier: seq<Request>, ghost later: seq<Request>)
      requires LastSeq(server.View(), client) == seqNo && |gaps| == |losses|
      requires forall i :: 0 <= i < |gaps| ==> FromOthers(gaps[i], client)
      modifies this, server
      ensures seqNo == old(seqNo) + 1 && LastSeq(server.View(), client) == seqNo && earlier + later == Flat(gaps)
      ensures exists t ::
                && TookEffect(old(server.View()), earlier, isAppend, PutAppendArgs(key, value, seqNo, client), later,
                  t, reply)
                && server.View() == if deleteLost then t else Forget(t, client)
    {
      seqNo := seqNo + 1;
      var args := PutAppendArgs(key, value, seqNo, client);
      ghost var before := server.View();
      ghost var executed, result := false, "";
      earlier, later := [], [];
      var tries := 0;
      while tries < |losses|
        invariant tries <= |losses| && seqNo == old(seqNo) + 1 && earlier + later == Flat(gaps[..tries])
        invariant FromOthers(earlier, client) && FromOthers(later, client)
        invariant if executed then TookEffect(before, earlier, isAppend, args, later, server.View(), result)
                  else later == [] && server.View() == ServeAll(before, earlier)
      {
        if losses[tries] == ReplyLost {
          Once(before, earlier, isAppend, args, later, server.View(), executed, result);
          var answer := Attempt(server, isAppend, args);
          executed, result := true, answer;
        }
        Sleep(server, gaps[tries]);
        FlatExtend(gaps, tries);
        if executed {
          EffectStays(before, earlier, isAppend, args, later, gaps[tries], result);
          later := later + gaps[tries];
        } else {
          ServeAllJoin(before, earlier, gaps[tries]);
          earlier := earlier + gaps[tries];
        }
        tries := tries + 1;
      }
      assert gaps[..|losses|] == gaps;
      Once(before, earlier, isAppend, args, later, server.View(), executed, result);
      reply := Attempt(server, isAppend, args);
      ghost var after := server.View();
      EffectKnown(before, earlier, isAppend, args, later, after, reply);
      if !deleteLost {
        server.Delete(client);
      }
      assert TookEffect(before, earlier, isAppend, args, later, after, reply);
    }
  }

  /** What an attempt does: the first takes effect, a later one changes nothing and repeats the reply. */
  lemma Once(
    s: Server, earlier: seq<Request>, isAppend: bool, args: PutAppendArgs, later: seq<Request>, now: Server,
    executed: bool,
    result: string)
    requires FromOthers(earlier, args.client) && FromOthers(later, args.client)
    requires LastSeq(s, args.client) == args.seqNo - 1
    requires if executed then TookEffect(s, earlier, isAppend, args, later, now, result)
             else later == [] && now == ServeAll(s, earlier)
    ensures var (t, reply) := Serve(now, isAppend, args);
            TookEffect(s, earlier, isAppend, args, later, t, reply) && (executed ==> reply == result)
  {
    if executed {
      EffectKnown(s, earlier, isAppend, args, later, now, result);
    } else {
      OthersKeep(s, earlier, args.client);
    }
  }

  lemma EffectKnown(
    s: Server, earlier: seq<Request>, isAppend: bool, args: PutAppendArgs, later: seq<Request>, t: Server,
    reply: string)
    requires FromOthers(later, args.client) && TookEffect(s, earlier, isAppend, args, later, t, reply)
    ensures LastSeq(t, args.client) == args.seqNo && RecordOf(t, args.client) == reply
  {
    OthersKeep(Execution(ServeAll(s, earlier), isAppend, args).0, later, args.client);
  }

  lemma EffectStays(
    s: Server, earlier: seq<Request>, isAppend: bool, args: PutAppendArgs, later: seq<Request>, more: seq<Request>,
    reply: string)
    ensures forall t :: TookEffect(s, earlier, isAppend, args, later, t, reply) ==>
              TookEffect(s, earlier, isAppend, args, later + more, ServeAll(t, more), reply)
  {
    ServeAllJoin(Execution(ServeAll(s, earlier), isAppend, args).0, later, more);
  }
}
