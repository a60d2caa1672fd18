/**
 What servers learn from replies: a late candidate steps down, a late leader
 does not, and heartbeats without entries teach nothing.
 */
module RaftReplies {
  import opened RaftState
  import opened RaftCluster
  import opened RaftTheorems

  /** A repeated request gets the same answer and changes nothing. */
  lemma RepeatedVoteIsTheSame(nd: Node, args: VoteArgs)
    ensures var (after, reply) := HandleVote(nd, args);
            var (again, second) := HandleVote(after, args);
            again == after && second.granted == reply.granted
  {
    hide UpToDate;
  }

  /** A candidate that asks a server of a later term follows in that term, with the log and no vote. */
  lemma LateCandidateStepsDown(candidate: Node, voter: Node)
    requires candidate.role == Candidate && voter.term > candidate.term
    ensures var args := VoteArgsOf(candidate);
            var (after, reply) := HandleVote(voter, args);
            var told := HandleVoteReply(candidate, args, reply);
            && after == voter && told.role == Follower && told.term == voter.term && told.votedFor == -1
            && told.log == candidate.log && told.commit == candidate.commit && Durable(told)
  {
  }

  /** A caller that has moved on from the term of its call follows in the later term of the server it called. */
  lemma LateCallerStepsDown(nd: Node, server: nat, args: AppendArgs, called: Node)
    requires nd.peers <= |nd.matched| && nd.commit >= 0 && nd.log != [] && server < |nd.next| && server < |nd.matched|
    requires called.log != [] && args.prevIndex >= -1 && args.term < nd.term < called.term
    ensures var (after, reply) := HandleAppend(called, args);
            var told := HandleAppendReply(nd, server, args, reply);
            && after == called && told.role == Follower && told.term == called.term && told.votedFor == -1
            && told.log == nd.log && told.commit == nd.commit && Durable(told)
  {
  }

  /**
   A leader that calls a server of a later term stays leader, although the reply
   carries that term: it only goes back to the first entry for that server.
   */
  lemma LateLeaderStays(leader: Node, server: nat, isHeartbeat: bool, called: Node)
    requires leader.role == Leader && leader.peers <= |leader.matched| && leader.commit >= 0 && LogShape(leader.log)
    requires server < |leader.next| && server < |leader.matched| && leader.next[server] >= 0
    requires called.log != [] && called.term > leader.term
    ensures var args := BuildAppend(leader, server, isHeartbeat);
            var (after, reply) := HandleAppend(called, args);
            && after == called && reply.term > leader.term
            && HandleAppendReply(leader, server, args, reply) == leader.(next := leader.next[server := 1])
  {
    hide CommitCheck;
  }

  /** A reply of a later term makes a follower exactly of whoever is not leader of the term of the call. */
  lemma StepsDownExactlyWhen(nd: Node, server: nat, args: AppendArgs, reply: AppendReply)
    requires nd.peers <= |nd.matched| && nd.commit >= 0 && nd.log != [] && server < |nd.next| && server < |nd.matched|
    requires reply.term > nd.term
    ensures var told := HandleAppendReply(nd, server, args, reply);
            && (told.role == Follower && told.term == reply.term <==> !(nd.role == Leader && args.term == nd.term))
            && (told.role == Leader <==> nd.role == Leader && args.term == nd.term)
  {
    hide CommitPoint, BackedUp;
  }

  /**
   An accepted message tells the leader that the server has its whole log, and the
   leader commits all it may, unless the message was a heartbeat with nothing to
   send: then the leader learns nothing, even where it did not know.
   */
  lemma CreditedExactlyWhen(leader: Node, server: nat, isHeartbeat: bool, called: Node)
    requires leader.role == Leader && leader.peers <= |leader.matched| && leader.commit >= 0 && LogShape(leader.log)
    requires server < |leader.next| && server < |leader.matched| && leader.next[server] >= 1
    requires LogShape(called.log)
    requires HandleAppend(called, BuildAppend(leader, server, isHeartbeat)).1.success
    ensures var args := BuildAppend(leader, server, isHeartbeat);
            var told := HandleAppendReply(leader, server, args, HandleAppend(called, args).1);
            if isHeartbeat && leader.next[server] >= |leader.log| then told == leader
            else told.matched[server] == |leader.log| - 1 && told.next[server] == |leader.log| && CommitsAll(told)
  {
    AcceptedIsInside(leader, server, isHeartbeat, called);
    var args := BuildAppend(leader, server, isHeartbeat);
    var reply := HandleAppend(called, args).1;
    hide HandleAppend, CommitPoint, CommitsAll;
    if !(isHeartbeat && leader.next[server] >= |leader.log|) {
      CommitsWhatItMay(leader, server, args, reply);
    }
  }

  /** Nobody accepts a message that starts past the end of the leader's log. */
  lemma AcceptedIsInside(leader: Node, server: nat, isHeartbeat: bool, called: Node)
    requires server < |leader.next| && leader.next[server] >= 1 && LogShape(leader.log) && LogShape(called.log)
    requires HandleAppend(called, BuildAppend(leader, server, isHeartbeat)).1.success
    ensures leader.next[server] <= |leader.log|
  {
    hide Appended, RunStart;
  }
}
