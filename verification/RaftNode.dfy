/**
 The Raft object itself: its methods change fields in place and loop over
 arrays, and each is proved to do what `RaftState` says of the server's value.
 */
module RaftNode {
  import opened RaftState

  /** Storage that survives a crash; `Save` replaces what it holds. */
  class Persister {
    var raftstate: Saved

    constructor ()
      ensures raftstate == Nothing
    {
      raftstate := Nothing;
    }

    method Copy() returns (np: Persister)
      ensures fresh(np) && np.raftstate == raftstate
    {
      np := new Persister();
      np.raftstate := raftstate;
    }

    method ReadRaftState() returns (data: Saved)
      ensures data == raftstate
    {
      data := raftstate;
    }

    method Save(data: Saved)
      modifies this
      ensures raftstate == data
    {
      raftstate := data;
    }
  }

  class Raft {
    const me: nat
    const peers: nat
    const persister: Persister
    const nextIndex: array<int>
    const matchIndex: array<int>
    var whoami: Role
    var currentTerm: int
    var votedFor: int
    var log: Log
    var committedIndex: int
    var lastApplied: int
    var voteCounts: int

    ghost predicate Valid()
      reads this
    {
      me < peers && nextIndex != matchIndex && nextIndex.Length == peers && matchIndex.Length == peers
    }

    ghost function View(): Node
      reads this, persister, nextIndex, matchIndex
    {
      Node(me, peers, whoami, currentTerm, votedFor, log, committedIndex, lastApplied,
           nextIndex[..], matchIndex[..], voteCounts, persister.raftstate)
    }

    /** Restarting on a persister gives the server that was saved there, as a follower. */
    constructor Make(peers: nat, me: nat, persister: Persister)
      requires me < peers
      ensures Valid() && fresh(nextIndex) && fresh(matchIndex) && this.persister == persister
      ensures View() == Made(me, peers, persister.raftstate)
    {
      this.me, this.peers, this.persister := me, peers, persister;
      whoami, currentTerm, votedFor, log := Follower, 0, -1, [SENTINEL];
      committedIndex, lastApplied, voteCounts := 0, 0, 0;
      nextIndex, matchIndex := new int[peers], new int[peers];
      new;
      var lastLogIndex := GetLastLogIndex();
      for i := 0 to peers
        invariant forall k :: 0 <= k < i ==> nextIndex[k] == lastLogIndex + 1 && matchIndex[k] == 0
        invariant log == [SENTINEL] && whoami == Follower && currentTerm == 0 && votedFor == -1
        invariant committedIndex == 0 && lastApplied == 0 && voteCounts == 0
      {
        matchIndex[i], nextIndex[i] := 0, lastLogIndex + 1;
      }
      var data := persister.ReadRaftState();
      assert nextIndex[..] == Filled(peers, 1) && matchIndex[..] == Filled(peers, 0);
      ReadPersist(data);
    }

    method ReadPersist(data: Saved)
      modifies this
      ensures data.Nothing? ==> View() == old(View())
      ensures data.Saved? ==> View() == old(View()).(term := data.term, votedFor := data.votedFor, log := data.log)
    {
      if data.Nothing? {
        return;
      }
      currentTerm, votedFor, log := data.term, data.votedFor, data.log;
    }

    method PersistState()
      modifies persister
      ensures View() == Persist(old(View()))
    {
      persister.Save(Saved(currentTerm, votedFor, log));
    }

    method GetLastLogIndex() returns (i: int)
      ensures i == LastLogIndex(log)
    {
      if |log| == 0 {
        return 0;
      }
      return |log| - 1;
    }

    method GetLogTerm(index: int) returns (term: int)
      ensures term == LogTerm(log, index)
    {
      if index == -1 || index < 0 || index >= |log| {
        return 0;
      }
      return log[index].term;
    }

    method ConvertToFollower(term: int)
      modifies this, persister
      ensures View() == ToFollower(old(View()), term)
    {
      currentTerm := term;
      whoami := Follower;
      votedFor := -1;
      PersistState();
    }

    method ConvertToLeader()
      requires Valid()
      modifies this, nextIndex, matchIndex
      ensures Valid() && View() == ToLeader(old(View()))
    {
      whoami := Leader;
      for i := 0 to peers
        invariant forall k :: 0 <= k < i ==> nextIndex[k] == |log| + 1 && matchIndex[k] == 0
        invariant View().(next := [], matched := []) == old(View()).(role := Leader, next := [], matched := [])
      {
        nextIndex[i] := |log| + 1;
        matchIndex[i] := 0;
      }
      assert nextIndex[..] == Filled(peers, |log| + 1) && matchIndex[..] == Filled(peers, 0);
    }

    // -------------------------------------------------------------------
    // Elections

    method StartElection() returns (args: VoteArgs)
      requires Valid()
      modifies this, persister
      ensures Valid() && View() == Elect(old(View())) && args == VoteArgsOf(View())
    {
      votedFor := me;
      whoami := Candidate;
      currentTerm := currentTerm + 1;
      PersistState();
      args := CandidateRequestVote();
    }

    method CandidateRequestVote() returns (args: VoteArgs)
      modifies this
      ensures View() == old(View()).(votes := 1) && args == VoteArgsOf(View())
    {
      var lastLogIndex := GetLastLogIndex();
      var lastLogTerm := GetLogTerm(lastLogIndex);
      args := VoteArgs(currentTerm, me, lastLogIndex, lastLogTerm);
      voteCounts := 1;
    }

    method RequestVote(args: VoteArgs) returns (reply: VoteReply)
      requires Valid()
      modifies this, persister
      ensures Valid() && (View(), reply) == HandleVote(old(View()), args)
    {
      reply := VoteReply(currentTerm, false);
      if args.term < currentTerm {
        return;
      }
      if args.term > currentTerm {
        ConvertToFollower(args.term);
      }
      var lastLogIndex := GetLastLogIndex();
      var lastLogTerm := GetLogTerm(lastLogIndex);
      var candidateIsUpToDate :=
        args.lastTerm > lastLogTerm || (args.lastTerm == lastLogTerm && args.lastIndex >= lastLogIndex);
      var canVote := votedFor == -1 || votedFor == args.candidate;
      if canVote && candidateIsUpToDate {
        votedFor := args.candidate;
        PersistState();
        reply := reply.(granted := true);
      }
    }

    method ProcessVoteReply(args: VoteArgs, reply: VoteReply)
      requires Valid()
      modifies this, persister, nextIndex, matchIndex
      ensures Valid() && View() == HandleVoteReply(old(View()), args, reply)
    {
      if args.term == currentTerm && whoami == Candidate {
        if reply.term > currentTerm {
          ConvertToFollower(reply.term);
          return;
        }
        if reply.granted {
          voteCounts := voteCounts + 1;
          if voteCounts > peers / 2 {
            ConvertToLeader();
          }
        }
      }
    }

    // -------------------------------------------------------------------
    // Replication

    method BuildAppendArgs(server: nat, isHeartbeat: bool) returns (args: AppendArgs)
      requires Valid() && server < peers && nextIndex[server] >= 0
      ensures args == BuildAppend(View(), server, isHeartbeat)
    {
      var next := nextIndex[server];
      var prevLogIndex := next - 1;
      var prevLogTerm := GetLogTerm(prevLogIndex);
      var entries, isNil := [], false;
      if next < |log| {
        entries := entries + log[next..];
      } else if isHeartbeat {
        entries, isNil := [], true;
      }
      args := AppendArgs(currentTerm, me, prevLogIndex, prevLogTerm, entries, isNil, committedIndex);
    }

    method FindRunStart(prevLogIndex: int, conflictTerm: int) returns (conflictIndex: int)
      requires prevLogIndex < |log|
      ensures conflictIndex == RunStart(log, prevLogIndex, conflictTerm)
    {
      conflictIndex := prevLogIndex;
      var i := prevLogIndex - 1;
      while i >= 0
        invariant i < |log| && i == conflictIndex - 1
        invariant RunStart(log, conflictIndex, conflictTerm) == RunStart(log, prevLogIndex, conflictTerm)
      {
        var term := GetLogTerm(i);
        if conflictTerm != term {
          break;
        }
        conflictIndex := i;
        i := i - 1;
      }
    }

    method AppendEntries(args: AppendArgs) returns (reply: AppendReply)
      requires Valid() && log != [] && args.prevIndex >= -1
      modifies this, persister
      ensures Valid() && (View(), reply) == HandleAppend(old(View()), args)
    {
      hide Appended, RunStart;
      reply := AppendReply(currentTerm, false, 0, 0);
      if args.term < currentTerm {
        return;
      }
      if args.term > currentTerm {
        ConvertToFollower(args.term);
      }
      var lastLogIndex := GetLastLogIndex();
      if args.prevIndex > lastLogIndex {
        reply := reply.(conflictIndex := |log|, conflictTerm := -1);
        return;
      }
      var prevTerm := GetLogTerm(args.prevIndex);
      if args.prevTerm != prevTerm {
        var start := FindRunStart(args.prevIndex, prevTerm);
        reply := reply.(conflictTerm := prevTerm, conflictIndex := start);
        return;
      }
      StoreEntries(args.prevIndex, args.entries);
      if args.commit > committedIndex {
        committedIndex := if args.commit < |log| - 1 then args.commit else |log| - 1;
      }
      reply := reply.(success := true);
    }

    /** The scan for a conflict, the cut and the append. */
    method StoreEntries(prevLogIndex: int, entries: Log)
      requires Valid() && -1 <= prevLogIndex < |log|
      modifies this, persister
      ensures Valid() && View() == Persist(old(View()).(log := Appended(old(log), prevLogIndex, entries)))
    {
      var conflictIndex := CutAtConflict(prevLogIndex + 1, entries);
      hide FirstConflict;
      if conflictIndex != -1 && |log| > 0 {
        log := log + entries;
        PersistState();
      } else {
        log := log[..prevLogIndex + 1] + entries;
        PersistState();
      }
    }

    /** Scans for an entry that differs in term from the one sent, and cuts the log before it. */
    method CutAtConflict(newEntriesStart: nat, entries: Log) returns (conflictIndex: int)
      modifies this`log
      ensures conflictIndex == FirstConflict(old(log), newEntriesStart, entries, 0)
      ensures log == if conflictIndex == -1 then old(log) else old(log)[..newEntriesStart + conflictIndex]
    {
      conflictIndex := -1;
      var i := 0;
      while i < |entries|
        invariant 0 <= i <= |entries| && conflictIndex == -1 && log == old(log)
        invariant FirstConflict(log, newEntriesStart, entries, i) == FirstConflict(log, newEntriesStart, entries, 0)
      {
        var currentIndex := newEntriesStart + i;
        var lastLogIndex := GetLastLogIndex();
        if currentIndex >= lastLogIndex {
          return;
        }
        if log[currentIndex].term != entries[i].term {
          log := log[..currentIndex];
          conflictIndex := i;
          return;
        }
        i := i + 1;
      }
    }

    method FindLastWithTerm(term: int) returns (index: int)
      ensures index == LastWithTerm(log, term, |log|)
    {
      index := -1;
      var i := |log| - 1;
      while i >= 0
        invariant -1 <= i < |log| && index == -1
        invariant LastWithTerm(log, term, i + 1) == LastWithTerm(log, term, |log|)
      {
        if term == log[i].term {
          return i;
        }
        i := i - 1;
      }
    }

    method ProcessAppendReply(server: nat, args: AppendArgs, reply: AppendReply)
      requires Valid() && server < peers && log != [] && 0 <= committedIndex
      modifies this, persister, nextIndex, matchIndex
      ensures Valid() && View() == HandleAppendReply(old(View()), server, args, reply)
    {
      if args.term != currentTerm || whoami != Leader {
        if reply.term > currentTerm {
          ConvertToFollower(reply.term);
        }
        return;
      }
      if !reply.success {
        if reply.conflictTerm == -1 {
          nextIndex[server] := reply.conflictIndex;
        } else {
          var lastConflictIndexInTerm := FindLastWithTerm(reply.conflictTerm);
          if lastConflictIndexInTerm != -1 {
            nextIndex[server] := lastConflictIndexInTerm + 1;
          } else {
            nextIndex[server] := reply.conflictIndex;
          }
        }
      } else if !args.isNil {
        matchIndex[server] := args.prevIndex + |args.entries|;
        nextIndex[server] := matchIndex[server] + 1;
        CheckAndCommitLogs();
      }
    }

    method CountMatches(n: int) returns (count: int)
      requires Valid()
      ensures count == 1 + MatchCount(View(), n, peers)
    {
      count := 1;
      for peer := 0 to peers
        invariant count == 1 + MatchCount(View(), n, peer)
      {
        if peer != me && matchIndex[peer] >= n {
          count := count + 1;
        }
      }
    }

    method CheckAndCommitLogs()
      requires Valid() && log != [] && 0 <= committedIndex
      modifies this
      ensures Valid() && View() == CommitCheck(old(View()))
    {
      var majority := peers / 2 + 1;
      var n := GetLastLogIndex();
      while n > committedIndex
        invariant View() == old(View()) && n < |log|
        invariant CommitPoint(View(), n) == CommitPoint(View(), LastLogIndex(log))
        decreases n - committedIndex
      {
        if log[n].term == currentTerm {
          var count := CountMatches(n);
          if count >= majority {
            committedIndex := n;
            break;
          }
        }
        n := n - 1;
      }
    }

    method Start(command: Command) returns (index: int, term: int, isLeader: bool)
      requires Valid()
      modifies this, persister
      ensures Valid() && View() == Submit(old(View()), command)
      ensures isLeader == (old(whoami) == Leader)
      ensures isLeader ==> term == currentTerm && 0 <= index < |log| && index == |log| - 1
      ensures isLeader ==> log[index] == LogEntry(term, command)
      ensures !isLeader ==> index == -1 && term == -1
    {
      index, term, isLeader := -1, -1, whoami == Leader;
      if !isLeader {
        return;
      }
      term := currentTerm;
      log := log + [LogEntry(currentTerm, command)];
      PersistState();
      index := GetLastLogIndex();
    }
  }
}
