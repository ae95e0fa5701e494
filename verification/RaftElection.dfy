/** Leader election among consensus nodes (packages/raft-consensus/src/raft-node.ts).

    Each vote request, reply and heartbeat is delivered at any later time or lost; a node
    handles one message in one piece. Whether a candidate's log is up to date is a parameter.
    `checked` is the repair: an election counts a vote only while its own term is current. */
module RaftElection {

  import opened Basics

  datatype Role = Follower | Candidate | Leader

  /** `timer`: the election timer is set. */
  datatype Server = Server(role: Role, term: nat, votedFor: Option<nat>, timer: bool)

  /** One requestVotes call: the votes it has counted, and the peers it still waits for. */
  datatype Round = Round(candidate: nat, term: nat, votes: set<nat>, waiting: set<nat>)

  datatype Reply = Reply(round: nat, voter: nat, term: nat, granted: bool)

  datatype Win = Win(term: nat, leader: nat, voters: set<nat>)

  datatype World = World(
    servers: seq<Server>,
    rounds: seq<Round>,
    replies: set<Reply>,          // every answer given to a vote request
    beats: set<(nat, nat)>,       // leader and term of every heartbeat sent
    acks: set<(nat, nat)>,        // addressee and term of every answer to a heartbeat
    wins: set<Win>)               // every election won, with the votes counted

  datatype Event =
    | Timeout(server: nat)
    | Request(round: nat, voter: nat, upToDate: bool)
    | Answer(reply: Reply)
    | Lost(round: nat, voter: nat)             // the peer is unreachable
    | Heartbeat(server: nat)
    | Append(leader: nat, term: nat, server: nat)
    | Ack(server: nat, term: nat)

  function Majority(n: nat): nat { n / 2 + 1 }

  function All(n: nat): (r: set<nat>)
    ensures forall j: nat :: j in r <==> j < n
    ensures |r| == n
  {
    if n == 0 then {} else All(n - 1) + {n - 1}
  }

  function Others(n: nat, i: nat): set<nat> { All(n) - {i} }

  function Start(n: nat): World {
    World(seq(n, i => Server(Follower, 0, None, true)), [], {}, {}, {}, {})
  }

  // ---------- One node ----------

  function Electing(s: Server, i: nat): Server { Server(Candidate, s.term + 1, Some(i), false) }

  /** A message with a higher term makes a follower of everyone. */
  function StepDown(s: Server, term: nat): Server {
    if term > s.term then Server(Follower, term, None, true) else s
  }

  predicate Grants(s: Server, candidate: nat, term: nat, upToDate: bool) {
    var s' := StepDown(s, term);
    term >= s.term && (s'.votedFor.None? || s'.votedFor == Some(candidate)) && upToDate
  }

  /** handleVoteRequest. */
  function Asked(s: Server, candidate: nat, term: nat, upToDate: bool): Server {
    if term < s.term then s
    else if Grants(s, candidate, term, upToDate)
    then StepDown(s, term).(votedFor := Some(candidate), timer := true)
    else StepDown(s, term)
  }

  /** The election part of handleAppendEntries. */
  function Appended(s: Server, term: nat): Server {
    if term < s.term then s
    else if term > s.term || !s.role.Follower? then Server(Follower, term, None, true)
    else s.(timer := true)
  }

  // ---------- One event ----------

  function With(w: World, i: nat, s: Server): World
    requires i < |w.servers|
  {
    w.(servers := w.servers[i := s])
  }

  /** A vote that makes the majority makes a leader of whoever is a candidate by then, unless
      the repair asks for the election's own term. */
  predicate Elects(checked: bool, n: nat, r: Round, s: Server) {
    |r.votes| >= Majority(n) && s.role.Candidate? && (checked ==> s.term == r.term)
  }

  /** When all peers have answered, a candidate without a majority sets its timer again. */
  function Settled(n: nat, r: Round, s: Server): Server {
    if r.waiting == {} && s.role.Candidate? && |r.votes| < Majority(n) then s.(timer := true) else s
  }

  function Counted(checked: bool, w: World, reply: Reply): World
    requires reply.round < |w.rounds| && w.rounds[reply.round].candidate < |w.servers|
  {
    var n, k := |w.servers|, reply.round;
    var waited := w.rounds[k].(waiting := w.rounds[k].waiting - {reply.voter});
    var i := waited.candidate;
    var s := w.servers[i];
    if reply.term > s.term then
      With(w, i, StepDown(s, reply.term)).(rounds := w.rounds[k := waited])
    else if !reply.granted then
      With(w, i, Settled(n, waited, s)).(rounds := w.rounds[k := waited])
    else
      var r := waited.(votes := waited.votes + {reply.voter});
      var w' := w.(rounds := w.rounds[k := r]);
      if Elects(checked, n, r, s)
      then With(w', i, s.(role := Leader, timer := false))
             .(wins := w.wins + {Win(s.term, i, r.votes)}, beats := w.beats + {(i, s.term)})
      else With(w', i, Settled(n, r, s))
  }

  function Apply(checked: bool, w: World, e: Event): World {
    match e
    case Timeout(i) =>
      if i < |w.servers| && w.servers[i].timer && !w.servers[i].role.Leader? then
        var s := Electing(w.servers[i], i);
        With(w, i, s).(rounds := w.rounds + [Round(i, s.term, {i}, Others(|w.servers|, i))])
      else w
    case Request(k, j, upToDate) =>
      if k < |w.rounds| && j < |w.servers| && j != w.rounds[k].candidate then
        var r := w.rounds[k];
        var s := Asked(w.servers[j], r.candidate, r.term, upToDate);
        var granted := Grants(w.servers[j], r.candidate, r.term, upToDate);
        With(w, j, s).(replies := w.replies + {Reply(k, j, s.term, granted)})
      else w
    case Answer(reply) =>
      if reply in w.replies && reply.round < |w.rounds| && w.rounds[reply.round].candidate < |w.servers|
         && reply.voter in w.rounds[reply.round].waiting
      then Counted(checked, w, reply) else w
    case Lost(k, j) =>
      if k < |w.rounds| && w.rounds[k].candidate < |w.servers| && j in w.rounds[k].waiting then
        var r := w.rounds[k].(waiting := w.rounds[k].waiting - {j});
        With(w, r.candidate, Settled(|w.servers|, r, w.servers[r.candidate])).(rounds := w.rounds[k := r])
      else w
    case Heartbeat(i) =>
      if i < |w.servers| && w.servers[i].role.Leader? then w.(beats := w.beats + {(i, w.servers[i].term)}) else w
    case Append(leader, term, j) =>
      if (leader, term) in w.beats && j < |w.servers| && j != leader then
        var s := Appended(w.servers[j], term);
        With(w, j, s).(acks := w.acks + {(leader, s.term)})
      else w
    case Ack(i, term) =>
      if (i, term) in w.acks && i < |w.servers| then With(w, i, StepDown(w.servers[i], term)) else w
  }

  function Run(checked: bool, w: World, es: seq<Event>): World
    decreases es
  {
    if es == [] then w else Run(checked, Apply(checked, w, es[0]), es[1..])
  }

  // ---------- At most one leader per term ----------

  ghost predicate OneLeaderPerTerm(w: World) {
    forall a, b | a in w.wins && b in w.wins && a.term == b.term :: a.leader == b.leader
  }

  /** Node `j` has given its vote to `c` in term `t`. */
  ghost predicate Voted(w: World, j: nat, t: nat, c: nat) {
    exists k :: 0 <= k < |w.rounds| && w.rounds[k].term == t && w.rounds[k].candidate == c && VotedIn(w, k, j)
  }

  ghost predicate VotedIn(w: World, k: nat, j: nat)
    requires k < |w.rounds|
  {
    j == w.rounds[k].candidate || Reply(k, j, w.rounds[k].term, true) in w.replies
  }

  ghost predicate Shape(w: World) { RoundsOk(w) && RolesOk(w) && BeatsOk(w) }

  ghost predicate RoundsOk(w: World) {
    && (forall k | 0 <= k < |w.rounds| ::
          && w.rounds[k].candidate < |w.servers| && w.rounds[k].candidate in w.rounds[k].votes
          && w.rounds[k].waiting <= Others(|w.servers|, w.rounds[k].candidate)
          && forall j | j in w.rounds[k].votes :: j < |w.servers| && VotedIn(w, k, j))
    && (forall a | a in w.replies :: a.round < |w.rounds| && a.voter < |w.servers|
          && (a.granted ==> a.term == w.rounds[a.round].term))
  }

  /** Candidates and leaders have voted for themselves. */
  ghost predicate RolesOk(w: World) {
    forall i | 0 <= i < |w.servers| && !w.servers[i].role.Follower? :: w.servers[i].votedFor == Some(i)
  }

  /** Who sends heartbeats or leads has won an election of that term. */
  ghost predicate BeatsOk(w: World) {
    && (forall b | b in w.beats :: HasWon(w, b.0, b.1))
    && (forall i | 0 <= i < |w.servers| && w.servers[i].role.Leader? :: HasWon(w, i, w.servers[i].term))
  }

  ghost predicate HasWon(w: World, i: nat, t: nat) { exists a :: a in w.wins && a.term == t && a.leader == i }

  ghost predicate Decided(w: World, t: nat) { exists a :: a in w.wins && a.term == t }

  /** Who voted in a term has reached it; before the term is decided the vote is still there,
      so there was only one. */
  ghost predicate VotesStand(w: World) {
    forall j: nat, t: nat, c: nat | Voted(w, j, t, c) ::
      && j < |w.servers| && w.servers[j].term >= t
      && (!Decided(w, t) && w.servers[j].term == t ==> w.servers[j].votedFor == Some(c))
  }

  ghost predicate VotesSingle(w: World) {
    forall j: nat, t: nat, c: nat, d: nat | Voted(w, j, t, c) && Voted(w, j, t, d) && !Decided(w, t) :: c == d
  }

  /** The voters of a winner have voted for nobody else in that term, and will not. */
  ghost predicate WinsStand(w: World) {
    forall a, j | a in w.wins && j in a.voters ::
      && j < |w.servers| && w.servers[j].term >= a.term
      && (w.servers[j].term == a.term ==>
            w.servers[j].votedFor == Some(a.leader) && (j == a.leader ==> !w.servers[j].role.Candidate?))
      && forall c: nat | Voted(w, j, a.term, c) :: c == a.leader
  }

  ghost predicate WinsAreMajorities(w: World) {
    forall a | a in w.wins ::
      a.leader in a.voters && |a.voters| >= Majority(|w.servers|) && forall j | j in a.voters :: j < |w.servers|
  }

  ghost predicate Safe(w: World) {
    && OneLeaderPerTerm(w) && Shape(w) && VotesStand(w) && VotesSingle(w) && WinsStand(w) && WinsAreMajorities(w)
  }

  // ---------- What an event does to one node ----------

  /** Server `i` alone changes, and it neither forgets a vote in its term nor becomes a
      candidate in it. */
  ghost predicate OneMoves(w: World, w': World, i: nat) {
    && i < |w.servers| && |w'.servers| == |w.servers|
    && (forall j | 0 <= j < |w.servers| && j != i :: w'.servers[j] == w.servers[j])
    && Moves(w.servers[i], w'.servers[i])
  }

  ghost predicate Moves(s: Server, s': Server) {
    || s'.term > s.term
    || (s'.term == s.term && s'.votedFor == s.votedFor && (s'.role.Candidate? ==> s.role.Candidate?))
  }

  /** The same elections and the same votes given. */
  ghost predicate SameVotes(w: World, w': World) {
    && w'.replies == w.replies && |w'.rounds| == |w.rounds|
    && forall k | 0 <= k < |w.rounds| ::
         w'.rounds[k].candidate == w.rounds[k].candidate && w'.rounds[k].term == w.rounds[k].term
  }

  ghost predicate VotesOk(w: World) {
    OneLeaderPerTerm(w) && VotesStand(w) && VotesSingle(w) && WinsStand(w) && WinsAreMajorities(w)
  }

  lemma SameVotesVoted(w: World, w': World, j: nat, t: nat, c: nat)
    requires SameVotes(w, w')
    ensures Voted(w', j, t, c) <==> Voted(w, j, t, c)
  {
    if Voted(w, j, t, c) {
      var k :| 0 <= k < |w.rounds| && w.rounds[k].term == t && w.rounds[k].candidate == c && VotedIn(w, k, j);
      assert VotedIn(w', k, j);
    }
    if Voted(w', j, t, c) {
      var k :| 0 <= k < |w'.rounds| && w'.rounds[k].term == t && w'.rounds[k].candidate == c && VotedIn(w', k, j);
      assert VotedIn(w, k, j);
    }
  }

  lemma MoveKeepsVotes(w: World, w': World, i: nat)
    requires VotesOk(w) && OneMoves(w, w', i) && SameVotes(w, w') && w'.wins == w.wins
    ensures VotesOk(w')
  {
    forall j: nat, t: nat, c: nat ensures Voted(w', j, t, c) <==> Voted(w, j, t, c) {
      SameVotesVoted(w, w', j, t, c);
    }
    assert forall t :: Decided(w', t) <==> Decided(w, t);
  }

  /** A candidate or leader that hears from the leader of its own term forgets its vote, but
      it is none of that leader's voters. */
  lemma ForgetKeepsVotes(w: World, w': World, i: nat, leader: nat)
    requires VotesOk(w) && RolesOk(w) && SameVotes(w, w') && w'.wins == w.wins
    requires i < |w.servers| && |w'.servers| == |w.servers|
    requires forall j | 0 <= j < |w.servers| && j != i :: w'.servers[j] == w.servers[j]
    requires w'.servers[i].term == w.servers[i].term && !w.servers[i].role.Follower?
    requires HasWon(w, leader, w.servers[i].term) && leader != i
    ensures VotesOk(w')
  {
    forall j: nat, t: nat, c: nat ensures Voted(w', j, t, c) <==> Voted(w, j, t, c) {
      SameVotesVoted(w, w', j, t, c);
    }
    assert forall t :: Decided(w', t) <==> Decided(w, t);
    assert Decided(w, w.servers[i].term);
    forall a | a in w.wins && a.term == w.servers[i].term ensures i !in a.voters {
      assert a.leader == leader;
    }
  }

  lemma TimeoutVoted(w: World, i: nat, j: nat, t: nat, c: nat)
    requires RoundsOk(w) && i < |w.servers| && w.servers[i].timer && !w.servers[i].role.Leader?
    ensures Voted(Apply(true, w, Timeout(i)), j, t, c)
       <==> Voted(w, j, t, c) || (j == i && c == i && t == w.servers[i].term + 1)
  {
    var w' := Apply(true, w, Timeout(i));
    var n := |w.rounds|;
    assert w'.rounds[n] == Round(i, w.servers[i].term + 1, {i}, Others(|w.servers|, i));
    forall k | 0 <= k < n ensures w'.rounds[k] == w.rounds[k] && (VotedIn(w', k, j) <==> VotedIn(w, k, j)) {
    }
    assert VotedIn(w', n, j) <==> j == i;
    if Voted(w, j, t, c) {
      var k :| 0 <= k < n && w.rounds[k].term == t && w.rounds[k].candidate == c && VotedIn(w, k, j);
      assert VotedIn(w', k, j);
    }
  }

  lemma TimeoutKeepsVotes(w: World, i: nat)
    requires VotesOk(w) && RoundsOk(w) && i < |w.servers| && w.servers[i].timer && !w.servers[i].role.Leader?
    ensures VotesOk(Apply(true, w, Timeout(i)))
  {
    var w' := Apply(true, w, Timeout(i));
    forall j: nat, t: nat, c: nat
      ensures Voted(w', j, t, c) <==> Voted(w, j, t, c) || (j == i && c == i && t == w.servers[i].term + 1)
    {
      TimeoutVoted(w, i, j, t, c);
    }
    assert forall t :: Decided(w', t) <==> Decided(w, t);
  }

  lemma RequestVoted(w: World, w': World, k: nat, v: nat, term: nat, granted: bool, j: nat, t: nat, c: nat)
    requires k < |w.rounds| && w'.rounds == w.rounds && w'.replies == w.replies + {Reply(k, v, term, granted)}
    requires granted ==> term == w.rounds[k].term
    ensures Voted(w', j, t, c)
       <==> Voted(w, j, t, c) || (granted && j == v && t == w.rounds[k].term && c == w.rounds[k].candidate)
  {
    if Voted(w, j, t, c) {
      var m :| 0 <= m < |w.rounds| && w.rounds[m].term == t && w.rounds[m].candidate == c && VotedIn(w, m, j);
      assert VotedIn(w', m, j);
    }
    if Voted(w', j, t, c) {
      var m :| 0 <= m < |w'.rounds| && w'.rounds[m].term == t && w'.rounds[m].candidate == c && VotedIn(w', m, j);
      assert VotedIn(w, m, j) || (m == k && j == v && granted);
    }
    if granted {
      assert VotedIn(w', k, v);
    }
  }

  /** A vote given: the voter stands in that term with no other vote. */
  lemma GrantKeepsVotes(w: World, w': World, k: nat, v: nat)
    requires VotesOk(w) && k < |w.rounds| && v < |w.servers| && |w'.servers| == |w.servers| && w'.wins == w.wins
    requires var r := w.rounds[k];
      && w'.rounds == w.rounds && w'.replies == w.replies + {Reply(k, v, r.term, true)}
      && w'.servers[v].term == r.term >= w.servers[v].term && w'.servers[v].votedFor == Some(r.candidate)
      && (w.servers[v].term == r.term ==>
            && (w.servers[v].votedFor.None? || w.servers[v].votedFor == Some(r.candidate))
            && w'.servers[v].role == w.servers[v].role)
      && (w.servers[v].term < r.term ==> w'.servers[v].role.Follower?)
    requires forall j | 0 <= j < |w.servers| && j != v :: w'.servers[j] == w.servers[j]
    ensures VotesOk(w')
  {
    var r := w.rounds[k];
    forall j: nat, t: nat, c: nat
      ensures Voted(w', j, t, c) <==> Voted(w, j, t, c) || (j == v && t == r.term && c == r.candidate)
    {
      RequestVoted(w, w', k, v, r.term, true, j, t, c);
    }
    assert forall t :: Decided(w', t) <==> Decided(w, t);
  }

  lemma DenialKeepsVotes(w: World, w': World, k: nat, v: nat, term: nat)
    requires VotesOk(w) && k < |w.rounds| && OneMoves(w, w', v) && w'.wins == w.wins
    requires w'.rounds == w.rounds && w'.replies == w.replies + {Reply(k, v, term, false)}
    ensures VotesOk(w')
  {
    forall j: nat, t: nat, c: nat ensures Voted(w', j, t, c) <==> Voted(w, j, t, c) {
      RequestVoted(w, w', k, v, term, false, j, t, c);
    }
    assert forall t :: Decided(w', t) <==> Decided(w, t);
  }

  lemma MajoritiesMeet(a: set<nat>, b: set<nat>, n: nat) returns (j: nat)
    requires (forall x | x in a :: x < n) && (forall x | x in b :: x < n)
    requires |a| >= Majority(n) && |b| >= Majority(n)
    ensures j in a && j in b
  {
    if a * b == {} {
      assert |a + b| == |a| + |b|;
      SubsetSize(a + b, All(n));
      assert false;
    }
    j :| j in a * b;
  }

  /** Two elections of one term are not won both: a majority voter would have voted twice. */
  lemma UndecidedBefore(w: World, i: nat, voters: set<nat>)
    requires VotesOk(w) && i < |w.servers| && w.servers[i].role.Candidate?
    requires i in voters && |voters| >= Majority(|w.servers|)
    requires forall j | j in voters :: j < |w.servers| && Voted(w, j, w.servers[i].term, i)
    ensures !Decided(w, w.servers[i].term)
  {
    if Decided(w, w.servers[i].term) {
      var a :| a in w.wins && a.term == w.servers[i].term;
      var j := MajoritiesMeet(a.voters, voters, |w.servers|);
    }
  }

  lemma WinKeepsVotes(w: World, w': World, i: nat, voters: set<nat>)
    requires VotesOk(w) && i < |w.servers| && |w'.servers| == |w.servers| && w.servers[i].role.Candidate?
    requires forall j | 0 <= j < |w.servers| && j != i :: w'.servers[j] == w.servers[j]
    requires w'.servers[i] == w.servers[i].(role := Leader, timer := false)
    requires i in voters && |voters| >= Majority(|w.servers|)
    requires forall j | j in voters :: j < |w.servers| && Voted(w, j, w.servers[i].term, i)
    requires SameVotes(w, w') && w'.wins == w.wins + {Win(w.servers[i].term, i, voters)}
    ensures VotesOk(w')
  {
    UndecidedBefore(w, i, voters);
    forall j: nat, t: nat, c: nat ensures Voted(w', j, t, c) <==> Voted(w, j, t, c) {
      SameVotesVoted(w, w', j, t, c);
    }
    assert forall t | Decided(w, t) :: Decided(w', t);
  }

  // ---------- Every event keeps it, if votes are counted in their own term ----------

  /** What the handlers make of one node: never a leader, and a candidate only of one. */
  ghost predicate Tame(s: Server, s': Server, i: nat) {
    && (s'.role.Leader? ==> s.role.Leader? && s'.term == s.term)
    && ((!s.role.Follower? ==> s.votedFor == Some(i)) ==> (!s'.role.Follower? ==> s'.votedFor == Some(i)))
  }

  lemma HandlersAreTame(s: Server, i: nat, term: nat, candidate: nat, upToDate: bool, n: nat, r: Round)
    requires candidate != i
    ensures Tame(s, Electing(s, i), i) && Tame(s, StepDown(s, term), i)
      && Tame(s, Asked(s, candidate, term, upToDate), i)
    ensures Tame(s, Appended(s, term), i) && Tame(s, Settled(n, r, s), i)
  {
  }

  /** One node changed tamely, and the wins are as they were. */
  lemma TameKeeps(w: World, w': World, i: nat)
    requires RolesOk(w) && BeatsOk(w) && i < |w.servers| && |w'.servers| == |w.servers|
    requires forall j | 0 <= j < |w.servers| && j != i :: w'.servers[j] == w.servers[j]
    requires Tame(w.servers[i], w'.servers[i], i)
    requires w'.wins == w.wins && forall b | b in w'.beats :: b in w.beats || HasWon(w, b.0, b.1)
    ensures RolesOk(w') && BeatsOk(w')
  {
    assert forall j: nat, t: nat :: HasWon(w', j, t) <==> HasWon(w, j, t);
  }

  lemma CountedRounds(w: World, reply: Reply)
    requires RoundsOk(w) && reply in w.replies && reply.round < |w.rounds|
      && reply.voter in w.rounds[reply.round].waiting
    ensures RoundsOk(Counted(true, w, reply)) && SameVotes(w, Counted(true, w, reply))
  {
    var w', k := Counted(true, w, reply), reply.round;
    assert SameVotes(w, w');
    forall m, j | 0 <= m < |w.rounds| && VotedIn(w, m, j) ensures VotedIn(w', m, j) {
    }
    assert reply.granted ==> VotedIn(w', k, reply.voter);
  }

  lemma RequestRounds(w: World, w': World, k: nat, v: nat, term: nat, granted: bool)
    requires RoundsOk(w) && k < |w.rounds| && v < |w.servers| && |w'.servers| == |w.servers|
    requires w'.rounds == w.rounds && w'.replies == w.replies + {Reply(k, v, term, granted)}
    requires granted ==> term == w.rounds[k].term
    ensures RoundsOk(w')
  {
    forall m, j | 0 <= m < |w.rounds| && VotedIn(w, m, j) ensures VotedIn(w', m, j) {
    }
  }

  lemma TimeoutRounds(w: World, i: nat)
    requires RoundsOk(w) && i < |w.servers| && w.servers[i].timer && !w.servers[i].role.Leader?
    ensures RoundsOk(Apply(true, w, Timeout(i)))
  {
    var w', n := Apply(true, w, Timeout(i)), |w.rounds|;
    assert forall m | 0 <= m < n :: w'.rounds[m] == w.rounds[m];
    forall m, j | 0 <= m < n && VotedIn(w, m, j) ensures VotedIn(w', m, j) {
    }
    assert VotedIn(w', n, i);
  }

  lemma TimeoutSafe(w: World, i: nat)
    requires Safe(w)
    ensures Safe(Apply(true, w, Timeout(i)))
  {
    if i < |w.servers| && w.servers[i].timer && !w.servers[i].role.Leader? {
      TimeoutRounds(w, i);
      TimeoutKeepsVotes(w, i);
      HandlersAreTame(w.servers[i], i, 0, i + 1, true, 0, Round(0, 0, {}, {}));
      TameKeeps(w, Apply(true, w, Timeout(i)), i);
    }
  }

  lemma RequestSafe(w: World, k: nat, v: nat, upToDate: bool)
    requires Safe(w)
    ensures Safe(Apply(true, w, Request(k, v, upToDate)))
  {
    if k < |w.rounds| && v < |w.servers| && v != w.rounds[k].candidate {
      var w', r, s := Apply(true, w, Request(k, v, upToDate)), w.rounds[k], w.servers[v];
      var granted := Grants(s, r.candidate, r.term, upToDate);
      RequestRounds(w, w', k, v, w'.servers[v].term, granted);
      if granted {
        GrantKeepsVotes(w, w', k, v);
      } else {
        DenialKeepsVotes(w, w', k, v, w'.servers[v].term);
      }
      HandlersAreTame(s, v, r.term, r.candidate, upToDate, 0, r);
      TameKeeps(w, w', v);
    }
  }

  lemma LostSafe(w: World, k: nat, v: nat)
    requires Safe(w)
    ensures Safe(Apply(true, w, Lost(k, v)))
  {
    if k < |w.rounds| && v in w.rounds[k].waiting {
      var w', i := Apply(true, w, Lost(k, v)), w.rounds[k].candidate;
      forall m, j | 0 <= m < |w.rounds| && VotedIn(w, m, j) ensures VotedIn(w', m, j) {
      }
      MoveKeepsVotes(w, w', i);
      HandlersAreTame(w.servers[i], i, 0, i + 1, true, |w.servers|, w'.rounds[k]);
      TameKeeps(w, w', i);
    }
  }

  lemma AnswerSafe(w: World, reply: Reply)
    requires Safe(w)
    ensures Safe(Apply(true, w, Answer(reply)))
  {
    if reply in w.replies && reply.voter in w.rounds[reply.round].waiting {
      var w', k := Counted(true, w, reply), reply.round;
      var i := w.rounds[k].candidate;
      var s := w.servers[i];
      CountedRounds(w, reply);
      var r := w.rounds[k].(waiting := w.rounds[k].waiting - {reply.voter}, votes := w.rounds[k].votes + {reply.voter});
      if reply.term <= s.term && reply.granted && Elects(true, |w.servers|, r, s) {
        ElectedSafe(w, w', k, r.votes);
      } else {
        NotElectedSafe(w, reply);
      }
    }
  }

  lemma NotElectedSafe(w: World, reply: Reply)
    requires Safe(w) && reply in w.replies && reply.voter in w.rounds[reply.round].waiting
    requires RoundsOk(Counted(true, w, reply)) && Counted(true, w, reply).wins == w.wins
    requires SameVotes(w, Counted(true, w, reply))
    ensures Safe(Counted(true, w, reply))
  {
    var w', k := Counted(true, w, reply), reply.round;
    var i := w.rounds[k].candidate;
    HandlersAreTame(w.servers[i], i, reply.term, i + 1, true, |w.servers|, w'.rounds[k]);
    MoveKeepsVotes(w, w', i);
    TameKeeps(w, w', i);
  }

  lemma ElectedSafe(w: World, w': World, k: nat, votes: set<nat>)
    requires Safe(w) && RoundsOk(w') && SameVotes(w, w') && k < |w.rounds| && |w'.servers| == |w.servers|
    requires var i, s := w.rounds[k].candidate, w.servers[w.rounds[k].candidate];
      && s.role.Candidate? && s.term == w.rounds[k].term && |votes| >= Majority(|w.servers|)
      && w'.servers == w.servers[i := s.(role := Leader, timer := false)]
      && w'.wins == w.wins + {Win(s.term, i, votes)} && w'.beats == w.beats + {(i, s.term)}
      && votes == w'.rounds[k].votes && w'.replies == w.replies && i in votes
    ensures Safe(w')
  {
    var i := w.rounds[k].candidate;
    forall j | j in votes ensures j < |w.servers| && Voted(w, j, w.servers[i].term, i) {
      assert VotedIn(w', k, j) && VotedIn(w, k, j);
    }
    WinKeepsVotes(w, w', i, votes);
    assert Win(w.servers[i].term, i, votes) in w'.wins && HasWon(w', i, w.servers[i].term);
    assert forall j: nat, t: nat | HasWon(w, j, t) :: HasWon(w', j, t);
  }

  lemma AppendSafe(w: World, leader: nat, term: nat, v: nat)
    requires Safe(w)
    ensures Safe(Apply(true, w, Append(leader, term, v)))
  {
    if (leader, term) in w.beats && v < |w.servers| && v != leader {
      var w', s := Apply(true, w, Append(leader, term, v)), w.servers[v];
      assert HasWon(w, leader, term);
      if term == s.term && !s.role.Follower? {
        ForgetKeepsVotes(w, w', v, leader);
      } else {
        MoveKeepsVotes(w, w', v);
      }
      RoundsSame(w, w');
      HandlersAreTame(s, v, term, leader, true, 0, Round(0, 0, {}, {}));
      TameKeeps(w, w', v);
    }
  }

  lemma RoundsSame(w: World, w': World)
    requires RoundsOk(w) && w'.rounds == w.rounds && w'.replies == w.replies && |w'.servers| == |w.servers|
    ensures RoundsOk(w')
  {
    forall m, j | 0 <= m < |w.rounds| && VotedIn(w, m, j) ensures VotedIn(w', m, j) {
    }
  }

  lemma QuietSafe(w: World, e: Event)
    requires Safe(w) && (e.Heartbeat? || e.Ack?) && e.server < |w.servers|
    ensures Safe(Apply(true, w, e))
  {
    var w', i := Apply(true, w, e), e.server;
    MoveKeepsVotes(w, w', i);
    RoundsSame(w, w');
    HandlersAreTame(w.servers[i], i, if e.Ack? then e.term else 0, i + 1, true, 0, Round(0, 0, {}, {}));
    TameKeeps(w, w', i);
  }

  lemma SafeStep(w: World, e: Event)
    requires Safe(w)
    ensures Safe(Apply(true, w, e))
  {
    match e
    case Timeout(i) => TimeoutSafe(w, i);
    case Request(k, v, upToDate) => RequestSafe(w, k, v, upToDate);
    case Answer(reply) => AnswerSafe(w, reply);
    case Lost(k, v) => LostSafe(w, k, v);
    case Heartbeat(i) => if i < |w.servers| { QuietSafe(w, e); }
    case Append(leader, term, v) => AppendSafe(w, leader, term, v);
    case Ack(i, term) => if i < |w.servers| { QuietSafe(w, e); }
  }

  lemma {:induction false} SafeRun(w: World, es: seq<Event>)
    requires Safe(w)
    ensures Safe(Run(true, w, es))
    decreases es
  {
    if es != [] {
      SafeStep(w, es[0]);
      SafeRun(Apply(true, w, es[0]), es[1..]);
    }
  }

  // ---------- The code as it is ----------

  /** A vote of an earlier term makes a leader of the present one. */
  predicate Stale(w: World, e: Event) {
    && e.Answer? && e.reply in w.replies && e.reply.granted && e.reply.round < |w.rounds|
    && var r := w.rounds[e.reply.round];
       && r.candidate < |w.servers| && e.reply.voter in r.waiting && e.reply.term <= w.servers[r.candidate].term
       && Elects(false, |w.servers|, r.(votes := r.votes + {e.reply.voter}), w.servers[r.candidate])
       && w.servers[r.candidate].term != r.term
  }

  ghost predicate NeverStale(w: World, es: seq<Event>)
    decreases es
  {
    es == [] || (!Stale(w, es[0]) && NeverStale(Apply(false, w, es[0]), es[1..]))
  }

  lemma UncheckedStep(w: World, e: Event)
    requires !Stale(w, e)
    ensures Apply(false, w, e) == Apply(true, w, e)
  {
  }

  lemma {:induction false} UncheckedRun(w: World, es: seq<Event>)
    requires NeverStale(w, es)
    ensures Run(false, w, es) == Run(true, w, es)
    decreases es
  {
    if es != [] {
      UncheckedStep(w, es[0]);
      UncheckedRun(Apply(false, w, es[0]), es[1..]);
    }
  }

  lemma StartIsSafe(n: nat)
    ensures Safe(Start(n))
  {
  }

  /** Run by run: the code elects at most one leader per term as long as it counts no vote of
      an earlier term. The vote that a heartbeat makes a candidate forget does no harm. */
  lemma SafeUnlessStale(n: nat, es: seq<Event>)
    requires NeverStale(Start(n), es)
    ensures OneLeaderPerTerm(Run(false, Start(n), es))
  {
    UncheckedRun(Start(n), es);
    StartIsSafe(n);
    SafeRun(Start(n), es);
  }

  // ---------- A run with two leaders in one term ----------

  lemma {:induction false} RunAppend(checked: bool, w: World, es: seq<Event>, fs: seq<Event>)
    ensures Run(checked, w, es + fs) == Run(checked, Run(checked, w, es), fs)
    decreases es
  {
    if es == [] {
      assert es + fs == fs;
    } else {
      assert (es + fs)[1..] == es[1..] + fs;
      RunAppend(checked, Apply(checked, w, es[0]), es[1..], fs);
    }
  }

  /** Some run of the code as it is leads from `w` to `w'`. */
  ghost predicate Leads(w: World, w': World) { exists es :: w' == Run(false, w, es) }

  lemma LeadsStep(w: World, e: Event)
    ensures Leads(w, Apply(false, w, e))
  {
    assert [e][1..] == [];
    assert Apply(false, w, e) == Run(false, w, [e]);
  }

  lemma LeadsOn(w: World, mid: World, w': World)
    requires Leads(w, mid) && Leads(mid, w')
    ensures Leads(w, w')
  {
    var es :| mid == Run(false, w, es);
    var fs :| w' == Run(false, mid, fs);
    RunAppend(false, w, es, fs);
  }

  lemma LeadsNowhere(w: World)
    ensures Leads(w, w)
  {
    assert Run(false, w, []) == w;
  }

  /** Round `k` as its candidate opened it. */
  ghost predicate Opened(w: World, k: nat, c: nat, t: nat) {
    k < |w.rounds| && c < |w.servers| && w.rounds[k] == Round(c, t, {c}, Others(|w.servers|, c))
  }

  ghost predicate AllGrant(w: World, k: nat, c: nat, t: nat, m: nat) {
    forall j: nat | j < m && j != c :: Reply(k, j, t, true) in w.replies
  }

  ghost predicate OnlyServer(w: World, w': World, i: nat) {
    |w'.servers| == |w.servers| && forall j: nat | j < |w.servers| && j != i :: w'.servers[j] == w.servers[j]
  }

  ghost predicate OnlyRound(w: World, w': World, k: nat) {
    |w'.rounds| == |w.rounds| && forall m: nat | m < |w.rounds| && m != k :: w'.rounds[m] == w.rounds[m]
  }

  lemma TimesOut(w: World, i: nat) returns (w': World)
    requires i < |w.servers| && w.servers[i].timer && !w.servers[i].role.Leader?
    ensures Leads(w, w') && OnlyServer(w, w', i) && w'.servers[i] == Electing(w.servers[i], i)
    ensures w'.rounds == w.rounds + [Round(i, w.servers[i].term + 1, {i}, Others(|w.servers|, i))]
    ensures w'.replies == w.replies && w'.wins == w.wins
  {
    w' := Apply(false, w, Timeout(i));
    LeadsStep(w, Timeout(i));
  }

  /** Asked so far: the first `m` nodes have granted round `k`. */
  ghost predicate GrantedSoFar(w: World, w': World, k: nat, c: nat, t: nat, m: nat) {
    && |w'.servers| == |w.servers| && w'.rounds == w.rounds && w'.wins == w.wins && w.replies <= w'.replies
    && AllGrant(w', k, c, t, m)
    && (forall j: nat | j < |w.servers| ::
          w'.servers[j] == if j < m && j != c then Server(Follower, t, Some(c), true) else w.servers[j])
  }

  lemma AskOne(w: World, mid: World, k: nat, c: nat, t: nat, j: nat) returns (w': World)
    requires Opened(w, k, c, t) && j < |w.servers| && j != c && w.servers[j].term < t
      && GrantedSoFar(w, mid, k, c, t, j)
    ensures Leads(mid, w') && GrantedSoFar(w, w', k, c, t, j + 1)
  {
    assert mid.servers[j] == w.servers[j];
    w' := Apply(false, mid, Request(k, j, true));
    LeadsStep(mid, Request(k, j, true));
  }

  /** Everyone asked grants an up-to-date candidate of a higher term. */
  lemma {:induction false} AskAll(w: World, k: nat, c: nat, t: nat, m: nat) returns (w': World)
    requires Opened(w, k, c, t) && m <= |w.servers| && forall j: nat | j < m && j != c :: w.servers[j].term < t
    ensures Leads(w, w') && GrantedSoFar(w, w', k, c, t, m)
  {
    if m == 0 {
      w' := w;
      LeadsNowhere(w);
    } else {
      w' := AskAll(w, k, c, t, m - 1);
      if m - 1 != c {
        var mid := w';
        w' := AskOne(w, mid, k, c, t, m - 1);
        LeadsOn(w, mid, w');
      }
    }
  }

  /** The peers after the first `m` nodes. */
  function Left(n: nat, c: nat, m: nat): set<nat> { set j | j in Others(n, c) && j >= m }

  /** The candidate and its peers among the first `m` nodes. */
  function Heard(n: nat, c: nat, m: nat): set<nat> { All(n) - Left(n, c, m) }

  ghost predicate LostSoFar(w: World, w': World, k: nat, c: nat, m: nat)
    requires k < |w.rounds| && c < |w.servers|
  {
    && OnlyServer(w, w', c) && OnlyRound(w, w', k) && w'.replies == w.replies && w'.wins == w.wins
    && w'.rounds[k] == w.rounds[k].(waiting := Left(|w.servers|, c, m))
    && w'.servers[c] == w.servers[c].(timer := w'.servers[c].timer)
    && (Left(|w.servers|, c, m) == {} ==> w'.servers[c].timer)
  }

  lemma LeftOver(n: nat, c: nat, m: nat)
    requires c < n
    ensures Left(n, c, 0) == Others(n, c)
    ensures Left(n, c, m + 1) == if m == c then Left(n, c, m) else Left(n, c, m) - {m}
    ensures m < n && m != c ==> m in Left(n, c, m)
    ensures n >= 2 ==> Left(n, c, 0) != {}
  {
    assert n >= 2 ==> (if c == 0 then 1 else 0) in Others(n, c);
  }

  lemma LoseOne(w: World, mid: World, k: nat, c: nat, t: nat, j: nat) returns (w': World)
    requires Opened(w, k, c, t) && j < |w.servers| && j != c && |w.servers| >= 2 && w.servers[c].role.Candidate?
    requires LostSoFar(w, mid, k, c, j)
    ensures Leads(mid, w') && LostSoFar(w, w', k, c, j + 1)
  {
    LeftOver(|w.servers|, c, j);
    w' := Apply(false, mid, Lost(k, j));
    LeadsStep(mid, Lost(k, j));
  }

  /** All requests of a round are lost: its candidate sets the timer again. */
  lemma {:induction false} LoseAll(w: World, k: nat, c: nat, t: nat, m: nat) returns (w': World)
    requires Opened(w, k, c, t) && m <= |w.servers| && |w.servers| >= 2 && w.servers[c].role.Candidate?
    ensures Leads(w, w') && LostSoFar(w, w', k, c, m)
  {
    if m == 0 {
      LeftOver(|w.servers|, c, 0);
      LeadsNowhere(w);
      w' := w;
    } else {
      w' := LoseAll(w, k, c, t, m - 1);
      if m - 1 != c {
        var mid := w';
        w' := LoseOne(w, mid, k, c, t, m - 1);
        LeadsOn(w, mid, w');
      } else {
        LeftOver(|w.servers|, c, m - 1);
      }
    }
  }

  ghost predicate AnsweredSoFar(w: World, w': World, k: nat, c: nat, t: nat, m: nat)
    requires k < |w.rounds| && c < |w.servers|
  {
    && OnlyServer(w, w', c) && OnlyRound(w, w', k) && w'.replies == w.replies && w.wins <= w'.wins
    && w'.rounds[k] == Round(c, t, Heard(|w.servers|, c, m), Left(|w.servers|, c, m))
    && w'.servers[c].term == w.servers[c].term
    && (w'.servers[c].role.Candidate? ==> |Heard(|w.servers|, c, m)| < Majority(|w.servers|))
    && (!w'.servers[c].role.Candidate? ==> HasWon(w', c, w.servers[c].term))
  }

  lemma HeardIs(n: nat, c: nat, m: nat, x: nat)
    requires c < n
    ensures x in Heard(n, c, m) <==> x < n && (x == c || x < m)
  {
  }

  lemma HeardNext(n: nat, c: nat, m: nat)
    requires c < n && m < n
    ensures Heard(n, c, m + 1) == if m == c then Heard(n, c, m) else Heard(n, c, m) + {m}
  {
    forall x: nat ensures x in Heard(n, c, m + 1) <==> x in Heard(n, c, m) || x == m {
      HeardIs(n, c, m + 1, x);
      HeardIs(n, c, m, x);
    }
    HeardIs(n, c, m, c);
  }

  lemma HeardEnds(n: nat, c: nat)
    requires c < n
    ensures Heard(n, c, 0) == {c} && |Heard(n, c, n)| == n
  {
    forall x: nat ensures (x in Heard(n, c, 0) <==> x == c) && (x in Heard(n, c, n) <==> x in All(n)) {
      HeardIs(n, c, 0, x);
      HeardIs(n, c, n, x);
    }
    assert Heard(n, c, n) == All(n);
  }

  /** A vote counted while the node is a candidate. */
  lemma CountAsCandidate(w: World, k: nat, c: nat, j: nat, t: nat)
    requires Reply(k, j, t, true) in w.replies && k < |w.rounds| && w.rounds[k].candidate == c < |w.servers|
    requires j in w.rounds[k].waiting && w.servers[c].term >= t && w.servers[c].role.Candidate?
    ensures var w' := Apply(false, w, Answer(Reply(k, j, t, true)));
      var votes := w.rounds[k].votes + {j};
      && OnlyServer(w, w', c) && OnlyRound(w, w', k) && w'.replies == w.replies && w.wins <= w'.wins
      && w'.rounds[k] == w.rounds[k].(votes := votes, waiting := w.rounds[k].waiting - {j})
      && w'.servers[c].term == w.servers[c].term
      && (if |votes| >= Majority(|w.servers|)
          then w'.servers[c].role.Leader? && HasWon(w', c, w.servers[c].term)
          else w'.servers[c].role.Candidate?)
  {
    var w' := Apply(false, w, Answer(Reply(k, j, t, true)));
    var votes := w.rounds[k].votes + {j};
    if |votes| >= Majority(|w.servers|) {
      assert Win(w.servers[c].term, c, votes) in w'.wins;
    }
  }

  /** And one that comes later. */
  lemma CountAsOther(w: World, k: nat, c: nat, j: nat, t: nat)
    requires Reply(k, j, t, true) in w.replies && k < |w.rounds| && w.rounds[k].candidate == c < |w.servers|
    requires j in w.rounds[k].waiting && w.servers[c].term >= t && !w.servers[c].role.Candidate?
    ensures var w' := Apply(false, w, Answer(Reply(k, j, t, true)));
      && w'.servers == w.servers && OnlyRound(w, w', k) && w'.replies == w.replies && w'.wins == w.wins
      && w'.rounds[k] == w.rounds[k].(votes := w.rounds[k].votes + {j}, waiting := w.rounds[k].waiting - {j})
  {
  }

  lemma AnswerOne(w: World, mid: World, k: nat, c: nat, t: nat, j: nat) returns (w': World)
    requires Opened(w, k, c, t) && j < |w.servers| && j != c && Reply(k, j, t, true) in w.replies
    requires w.servers[c].term >= t && AnsweredSoFar(w, mid, k, c, t, j)
    ensures Leads(mid, w') && AnsweredSoFar(w, w', k, c, t, j + 1)
  {
    LeftOver(|w.servers|, c, j);
    HeardNext(|w.servers|, c, j);
    w' := Apply(false, mid, Answer(Reply(k, j, t, true)));
    LeadsStep(mid, Answer(Reply(k, j, t, true)));
    if mid.servers[c].role.Candidate? {
      CountAsCandidate(mid, k, c, j, t);
    } else {
      CountAsOther(mid, k, c, j, t);
      assert HasWon(mid, c, w.servers[c].term);
    }
  }

  /** All the votes of a round arrive while its candidate is one again, in whatever term. */
  lemma {:induction false} AnswerAll(w: World, k: nat, c: nat, t: nat, m: nat) returns (w': World)
    requires Opened(w, k, c, t) && m <= |w.servers| && AllGrant(w, k, c, t, m) && |w.servers| >= 2
    requires w.servers[c].role.Candidate? && w.servers[c].term >= t
    ensures Leads(w, w') && AnsweredSoFar(w, w', k, c, t, m)
  {
    if m == 0 {
      NothingAnswered(w, k, c, t);
      w' := w;
    } else {
      var mid := AnswerAll(w, k, c, t, m - 1);
      w' := AnswerNext(w, mid, k, c, t, m - 1, m);
    }
  }

  lemma AnswerNext(w: World, mid: World, k: nat, c: nat, t: nat, j: nat, m: nat) returns (w': World)
    requires Opened(w, k, c, t) && j < |w.servers| && m == j + 1 && (j != c ==> Reply(k, j, t, true) in w.replies)
    requires w.servers[c].term >= t && Leads(w, mid) && AnsweredSoFar(w, mid, k, c, t, j)
    ensures Leads(w, w') && AnsweredSoFar(w, w', k, c, t, m)
  {
    if j != c {
      w' := AnswerOne(w, mid, k, c, t, j);
      LeadsOn(w, mid, w');
    } else {
      OwnAnswered(w, mid, k, c, t);
      w' := mid;
    }
  }

  lemma NothingAnswered(w: World, k: nat, c: nat, t: nat)
    requires Opened(w, k, c, t) && |w.servers| >= 2 && w.servers[c].role.Candidate?
    ensures Leads(w, w) && AnsweredSoFar(w, w, k, c, t, 0)
  {
    LeftOver(|w.servers|, c, 0);
    HeardEnds(|w.servers|, c);
    LeadsNowhere(w);
  }

  lemma OwnAnswered(w: World, w': World, k: nat, c: nat, t: nat)
    requires k < |w.rounds| && c < |w.servers| && AnsweredSoFar(w, w', k, c, t, c)
    ensures AnsweredSoFar(w, w', k, c, t, c + 1)
  {
    LeftOver(|w.servers|, c, c);
    HeardNext(|w.servers|, c, c);
  }

  /** The votes of all peers make a leader, whatever its term by then. */
  lemma AllAnswered(w: World, k: nat, c: nat, t: nat) returns (w': World)
    requires Opened(w, k, c, t) && AllGrant(w, k, c, t, |w.servers|) && |w.servers| >= 2
    requires w.servers[c].role.Candidate? && w.servers[c].term >= t
    ensures Leads(w, w') && HasWon(w', c, w.servers[c].term)
    ensures OnlyServer(w, w', c) && OnlyRound(w, w', k) && w'.replies == w.replies && w.wins <= w'.wins
  {
    w' := AnswerAll(w, k, c, t, |w.servers|);
    HeardEnds(|w.servers|, c);
  }

  /** Both get every vote in an early term, but late: node 0 in term 1 and node 1 in term 2.
      Each times out again until both are candidates of term 4; then the old votes arrive and
      make both leaders of it. */
  lemma TwoLeaders(n: nat) returns (w: World)
    requires n >= 2
    ensures Leads(Start(n), w) && HasWon(w, 0, 4) && HasWon(w, 1, 4)
  {
    var w2 := BothElected(n);
    var w5 := BothCandidates(w2);
    var w6 := AllAnswered(w5, 0, 0, 1);
    assert AllGrant(w6, 1, 1, 2, n) && Opened(w6, 1, 1, 2);
    w := AllAnswered(w6, 1, 1, 2);
    LeadsOn(Start(n), w2, w5);
    LeadsOn(Start(n), w5, w6);
    LeadsOn(Start(n), w6, w);
    var a :| a in w6.wins && a.term == 4 && a.leader == 0;
    assert a in w.wins;
  }

  /** Terms 1 and 2: all votes granted, none delivered. */
  lemma BothElected(n: nat) returns (w: World)
    requires n >= 2
    ensures Leads(Start(n), w) && |w.servers| == n && |w.rounds| == 2
    ensures Opened(w, 0, 0, 1) && AllGrant(w, 0, 0, 1, n) && Opened(w, 1, 1, 2) && AllGrant(w, 1, 1, 2, n)
    ensures w.servers[0] == Server(Follower, 2, Some(1), true) && w.servers[1] == Server(Candidate, 2, Some(1), false)
  {
    var w1 := TimesOut(Start(n), 0);
    var w2 := AskAll(w1, 0, 0, 1, n);
    LeadsOn(Start(n), w1, w2);
    var w3 := TimesOut(w2, 1);
    LeadsOn(Start(n), w2, w3);
    w := AskAll(w3, 1, 1, 2, n);
    LeadsOn(Start(n), w3, w);
  }

  /** Node 0 times out, asks node 1 only, loses all answers and times out once more. */
  lemma BothCandidates(w: World) returns (w': World)
    requires |w.servers| >= 2 && |w.rounds| == 2
    requires w.servers[0] == Server(Follower, 2, Some(1), true) && w.servers[1] == Server(Candidate, 2, Some(1), false)
    ensures Leads(w, w') && |w'.servers| == |w.servers| && w.replies <= w'.replies
    ensures |w'.rounds| >= 2 && w'.rounds[0] == w.rounds[0] && w'.rounds[1] == w.rounds[1]
    ensures w'.servers[0].role.Candidate? && w'.servers[0].term == 4
    ensures w'.servers[1].role.Candidate? && w'.servers[1].term == 4
  {
    var w1 := TimesOut(w, 0);
    var w2 := AskAll(w1, 2, 0, 3, 2);
    LeadsOn(w, w1, w2);
    var w3 := TimesOut(w2, 1);
    LeadsOn(w, w2, w3);
    assert Opened(w3, 2, 0, 3);
    var w4 := LoseAll(w3, 2, 0, 3, |w.servers|);
    LeadsOn(w, w3, w4);
    assert Left(|w.servers|, 0, |w.servers|) == {};
    w' := TimesOut(w4, 0);
    LeadsOn(w, w4, w');
  }

  // ---------- Exactly when there is one leader per term ----------

  /** A single node has no peer to answer, so it is never elected. */
  ghost predicate NobodyWaits(w: World) {
    w.wins == {} && forall k | 0 <= k < |w.rounds| :: w.rounds[k].waiting == {}
  }

  lemma {:induction false} AloneNeverWins(w: World, es: seq<Event>)
    requires |w.servers| <= 1 && NobodyWaits(w)
    ensures NobodyWaits(Run(false, w, es))
    decreases es
  {
    if es != [] {
      AloneStep(w, es[0]);
      AloneNeverWins(Apply(false, w, es[0]), es[1..]);
    }
  }

  lemma AloneStep(w: World, e: Event)
    requires |w.servers| <= 1 && NobodyWaits(w)
    ensures NobodyWaits(Apply(false, w, e)) && |Apply(false, w, e).servers| <= 1
  {
    if e.Timeout? && e.server < |w.servers| {
      assert Others(|w.servers|, e.server) == {};
    }
  }

  ghost predicate AlwaysOneLeader(checked: bool, n: nat) {
    forall es :: OneLeaderPerTerm(Run(checked, Start(n), es))
  }

  /** Main theorem, over all interleavings of timeouts, requests, late and lost replies and
      heartbeats among `n` nodes: no term ever has two leaders exactly if elections count
      only votes of the present term, which the code does not check, or there is but one
      node. */
  lemma OneLeaderPerTermIff(checked: bool, n: nat)
    ensures AlwaysOneLeader(checked, n) <==> checked || n <= 1
  {
    if checked {
      forall es ensures OneLeaderPerTerm(Run(checked, Start(n), es)) {
        StartIsSafe(n);
        SafeRun(Start(n), es);
      }
    } else if n <= 1 {
      forall es ensures OneLeaderPerTerm(Run(checked, Start(n), es)) {
        AloneNeverWins(Start(n), es);
      }
    } else {
      var w := TwoLeaders(n);
      var es :| w == Run(false, Start(n), es);
      assert !OneLeaderPerTerm(Run(checked, Start(n), es));
    }
  }

  // ---------- The node ----------

  class RaftNode {
    const id: nat
    const cluster: nat                     // itself and its peers
    var state: Role
    var currentTerm: nat
    var votedFor: Option<nat>
    var timer: bool

    constructor (id: nat, cluster: nat)
      requires id < cluster
      ensures this.id == id && this.cluster == cluster && View() == Start(cluster).servers[id]
    {
      this.id, this.cluster := id, cluster;
      state, currentTerm, votedFor, timer := Follower, 0, None, true;
    }

    function View(): Server
      reads this
    {
      Server(state, currentTerm, votedFor, timer)
    }

    method ConvertToFollower()
      modifies this`state, this`timer
      ensures state == Follower && timer
    {
      state, timer := Follower, true;
    }

    /** The timer's callback; the round it opens is the next one of the run `w`. */
    method ConvertToCandidate(ghost w: World)
      requires |w.servers| == cluster && id < cluster && w.servers[id] == View() && timer && !state.Leader?
      modifies this
      ensures var w' := Apply(false, w, Timeout(id));
        && w'.servers[id] == View() && |w'.rounds| == |w.rounds| + 1
        && Opened(w', |w.rounds|, id, currentTerm) && currentTerm == old(currentTerm) + 1
    {
      state, timer := Candidate, false;
      currentTerm := currentTerm + 1;
      votedFor := Some(id);
    }

    /** handleVoteRequest: the term and the vote that go back. */
    method HandleVoteRequest(candidate: nat, term: nat, upToDate: bool) returns (replyTerm: nat, granted: bool)
      modifies this
      ensures View() == Asked(old(View()), candidate, term, upToDate) && replyTerm == currentTerm
      ensures granted <==> Grants(old(View()), candidate, term, upToDate)
      ensures granted ==> votedFor == Some(candidate) && currentTerm == term
    {
      if term < currentTerm { return currentTerm, false; }
      if term > currentTerm {
        currentTerm, votedFor := term, None;
        ConvertToFollower();
      }
      granted := (votedFor.None? || votedFor == Some(candidate)) && upToDate;
      if granted {
        votedFor, timer := Some(candidate), true;
      }
      return currentTerm, granted;
    }

    /** handleAppendEntries, as far as elections go. */
    method HandleAppendEntries(term: nat) returns (replyTerm: nat)
      modifies this
      ensures View() == Appended(old(View()), term) && replyTerm == currentTerm
      ensures old(state).Follower? && old(currentTerm) == term ==> votedFor == old(votedFor)
    {
      if term < currentTerm { return currentTerm; }
      if term > currentTerm || !state.Follower? {
        currentTerm, votedFor := term, None;
        ConvertToFollower();
      }
      timer := true;
      return currentTerm;
    }

    /** The closure of requestVotes on one reply to round `k` of the run `w`: how many votes
        the round then has, and whether it made a leader. */
    method CountVote(votes: nat, waiting: nat, replyTerm: nat, granted: bool, ghost w: World, ghost reply: Reply)
      returns (counted: nat, elected: bool)
      requires |w.servers| == cluster && id < cluster && w.servers[id] == View() && RoundsOk(w)
      requires reply in w.replies && reply.term == replyTerm && reply.granted == granted
      requires var r := w.rounds[reply.round];
        && r.candidate == id && reply.voter in r.waiting && reply.voter !in r.votes
        && votes == |r.votes| && waiting == |r.waiting|
      modifies this
      ensures var w' := Apply(false, w, Answer(reply));
        && w'.servers[id] == View() && counted == |w'.rounds[reply.round].votes|
        && (elected <==> state.Leader? && old(state).Candidate?) && (elected ==> HasWon(w', id, currentTerm))
    {
      ghost var r := w.rounds[reply.round];
      assert |r.waiting - {reply.voter}| == |r.waiting| - 1;
      counted, elected := votes, false;
      if replyTerm > currentTerm {
        currentTerm, votedFor := replyTerm, None;
        ConvertToFollower();
        return;
      }
      if granted {
        assert |r.votes + {reply.voter}| == |r.votes| + 1;
        counted := votes + 1;
        if counted >= Majority(cluster) && state.Candidate? {
          state, timer := Leader, false;
          assert Win(currentTerm, id, r.votes + {reply.voter}) in Apply(false, w, Answer(reply)).wins;
          return counted, true;
        }
      }
      if waiting == 1 && state.Candidate? && counted < Majority(cluster) {
        timer := true;
      }
    }
  }
}
