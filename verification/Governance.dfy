/** A charter: the voting records of proposals, who has voted, and the verdict. */
module CharterModel {
  import opened Options

  const BASIS_DENOMINATOR := 1_000_000
  const MIN_VOTING_DELAY := 12

  type Voter = nat
  type Tracker = nat
  type ProposalId = nat

  datatype Voting = Voting(start: nat, end: nat, yes: nat, no: nat, abstain: nat)

  /** What a vote tracker remembers: this voter has voted on this proposal. */
  datatype Mark = Mark(tracker: Tracker, id: ProposalId, voter: Voter)

  /** One tracker per voting configuration; trackers may be shared between configurations. */
  datatype Charter = Charter(votingPeriod: nat, quorum: nat, basis: nat, trackers: seq<Tracker>,
                             votings: map<ProposalId, Voting>, marks: set<Mark>, late: set<ProposalId>)

  /** A vote through one configuration, with the weight its weight strategy reports for the voter. */
  datatype ConfigVote = ConfigVote(config: nat, weight: nat)

  const NO := 0
  const YES := 1
  const ABSTAIN := 2

  function Initialize(c: Charter, id: ProposalId, now: nat): Charter {
    c.(votings := c.votings[id := Voting(now + MIN_VOTING_DELAY, now + MIN_VOTING_DELAY + c.votingPeriod, 0, 0, 0)])
  }

  /** The loop of `castVote` from configuration vote i on: the marks it leaves and the weight it adds. */
  function RecordFrom(c: Charter, marks: set<Mark>, id: ProposalId, voter: Voter, votes: seq<ConfigVote>, i: nat)
    : Option<(set<Mark>, nat)>
    requires i <= |votes|
    decreases |votes| - i
  {
    if i == |votes| then Some((marks, 0))
    else if votes[i].config >= |c.trackers| || votes[i].weight == 0 then None
    else
      var mark := Mark(c.trackers[votes[i].config], id, voter);
      if mark in marks then None
      else match RecordFrom(c, marks + {mark}, id, voter, votes, i + 1)
           case None => None
           case Some(rest) => Some((rest.0, votes[i].weight + rest.1))
  }

  function Tally(v: Voting, kind: nat, weight: nat): Option<Voting> {
    if kind == YES then Some(v.(yes := v.yes + weight))
    else if kind == NO then Some(v.(no := v.no + weight))
    else if kind == ABSTAIN then Some(v.(abstain := v.abstain + weight))
    else None
  }

  predicate Open(v: Voting, now: nat) { v.start <= now <= v.end }

  /** The charter after a committed `castVote`; None when it reverts. The first late vote only leaves a flag. */
  function CastVote(c: Charter, id: ProposalId, voter: Voter, kind: nat, votes: seq<ConfigVote>, now: nat): Option<Charter> {
    if votes == [] || id !in c.votings || now < c.votings[id].start then None
    else if now > c.votings[id].end then (if id in c.late then None else Some(c.(late := c.late + {id})))
    else match RecordFrom(c, c.marks, id, voter, votes, 0)
         case None => None
         case Some(recorded) =>
           match Tally(c.votings[id], kind, recorded.1)
           case None => None
           case Some(v) => Some(c.(votings := c.votings[id := v], marks := recorded.0))
  }

  predicate QuorumMet(c: Charter, v: Voting) { v.yes + v.abstain >= c.quorum }

  predicate BasisMet(c: Charter, v: Voting) { v.yes * BASIS_DENOMINATOR > (v.yes + v.no) * c.basis }

  predicate Passed(c: Charter, v: Voting, now: nat) { now > v.end && QuorumMet(c, v) && BasisMet(c, v) }

  predicate ValidBasis(basis: nat) { BASIS_DENOMINATOR / 2 <= basis < BASIS_DENOMINATOR }

  /** Passing takes a strict majority of the votes for or against, and unanimity always meets the basis. */
  lemma BasisIsAMajority(c: Charter, v: Voting)
    requires ValidBasis(c.basis)
    ensures BasisMet(c, v) ==> v.yes > v.no
    ensures v.no == 0 ==> (BasisMet(c, v) <==> v.yes > 0)
  {
    var half := BASIS_DENOMINATOR / 2;
    assert (v.yes + v.no) * c.basis >= (v.yes + v.no) * half;
    assert v.yes > 0 ==> v.yes * c.basis < v.yes * BASIS_DENOMINATOR;
  }

  /**
   A vote just opened takes nothing for 12 seconds, does not pass by itself at any time, and accepts, while
   it is open, exactly the votes of voters its trackers have not seen.
   */
  lemma FreshVote(c: Charter, id: ProposalId, now: nat, at: nat, voter: Voter, kind: nat, votes: seq<ConfigVote>)
    ensures var d := Initialize(c, id, now); var r := CastVote(d, id, voter, kind, votes, at);
            && !Passed(d, d.votings[id], at)
            && (at < now + MIN_VOTING_DELAY ==> r == None)
            && (now + MIN_VOTING_DELAY <= at <= now + MIN_VOTING_DELAY + c.votingPeriod
                ==> (r.Some? <==> votes != [] && kind in {NO, YES, ABSTAIN} && RecordFrom(c, c.marks, id, voter, votes, 0).Some?))
    ensures forall other :: other != id && other in c.votings ==>
              CastVote(Initialize(c, id, now), other, voter, kind, votes, at).Some? == CastVote(c, other, voter, kind, votes, at).Some?
  {
    RecordIgnoresVotings(c, Initialize(c, id, now), c.marks, id, voter, votes, 0);
    forall other | other != id && other in c.votings
      ensures CastVote(Initialize(c, id, now), other, voter, kind, votes, at).Some? == CastVote(c, other, voter, kind, votes, at).Some?
    {
      RecordIgnoresVotings(c, Initialize(c, id, now), c.marks, other, voter, votes, 0);
    }
  }

  lemma {:induction false} RecordIgnoresVotings(c: Charter, d: Charter, marks: set<Mark>, id: ProposalId, voter: Voter, votes: seq<ConfigVote>, i: nat)
    requires i <= |votes| && d.trackers == c.trackers
    ensures RecordFrom(d, marks, id, voter, votes, i) == RecordFrom(c, marks, id, voter, votes, i)
    decreases |votes| - i
  {
    if i < |votes| && votes[i].config < |c.trackers| {
      RecordIgnoresVotings(c, d, marks + {Mark(c.trackers[votes[i].config], id, voter)}, id, voter, votes, i + 1);
    }
  }

  /** A configuration vote from i on: its tracker exists, it weighs something, and neither before nor earlier in the list was it used. */
  ghost predicate Countable(c: Charter, marks: set<Mark>, id: ProposalId, voter: Voter, votes: seq<ConfigVote>, i: nat, k: nat)
    requires i <= k < |votes|
  {
    && votes[k].config < |c.trackers| && votes[k].weight > 0
    && Mark(c.trackers[votes[k].config], id, voter) !in marks
    && forall j :: i <= j < k && votes[j].config < |c.trackers| ==> c.trackers[votes[j].config] != c.trackers[votes[k].config]
  }

  /** The loop of `castVote` goes through exactly when every configuration vote counts. */
  lemma {:induction false} RecordsIff(c: Charter, marks: set<Mark>, id: ProposalId, voter: Voter, votes: seq<ConfigVote>, i: nat)
    requires i <= |votes|
    ensures RecordFrom(c, marks, id, voter, votes, i).Some? <==> forall k :: i <= k < |votes| ==> Countable(c, marks, id, voter, votes, i, k)
    decreases |votes| - i
  {
    if i < |votes| {
      if votes[i].config >= |c.trackers| || votes[i].weight == 0 || Mark(c.trackers[votes[i].config], id, voter) in marks {
        assert !Countable(c, marks, id, voter, votes, i, i);
      } else {
        var mark := Mark(c.trackers[votes[i].config], id, voter);
        var next, grown := i + 1, marks + {mark};
        RecordsIff(c, grown, id, voter, votes, next);
        assert Countable(c, marks, id, voter, votes, i, i);
        if forall k :: next <= k < |votes| ==> Countable(c, grown, id, voter, votes, next, k) {
          forall k | i <= k < |votes| ensures Countable(c, marks, id, voter, votes, i, k) { if k > i { LaterCounts(c, marks, id, voter, votes, i, k); } }
        } else {
          var k :| next <= k < |votes| && !Countable(c, grown, id, voter, votes, next, k);
          LaterCounts(c, marks, id, voter, votes, i, k);
        }
      }
    }
  }

  lemma LaterCounts(c: Charter, marks: set<Mark>, id: ProposalId, voter: Voter, votes: seq<ConfigVote>, i: nat, k: nat)
    requires i < k < |votes| && votes[i].config < |c.trackers|
    ensures Countable(c, marks, id, voter, votes, i, k)
            <==> Countable(c, marks + {Mark(c.trackers[votes[i].config], id, voter)}, id, voter, votes, i + 1, k)
  {
  }

  // ---------------------------------------------------------------- ballots

  /** One counted configuration vote. */
  datatype Ballot = Ballot(mark: Mark, kind: nat, weight: nat, at: nat)

  function BallotsFrom(c: Charter, id: ProposalId, voter: Voter, kind: nat, votes: seq<ConfigVote>, now: nat, i: nat): seq<Ballot>
    requires i <= |votes| && forall k :: i <= k < |votes| ==> votes[k].config < |c.trackers|
    decreases |votes| - i
  {
    if i == |votes| then []
    else [Ballot(Mark(c.trackers[votes[i].config], id, voter), kind, votes[i].weight, now)]
         + BallotsFrom(c, id, voter, kind, votes, now, i + 1)
  }

  function Weight(bs: seq<Ballot>, id: ProposalId, kind: nat): nat {
    if bs == [] then 0 else (if bs[0].mark.id == id && bs[0].kind == kind then bs[0].weight else 0) + Weight(bs[1..], id, kind)
  }

  lemma {:induction false} WeightJoins(a: seq<Ballot>, b: seq<Ballot>, id: ProposalId, kind: nat)
    ensures Weight(a + b, id, kind) == Weight(a, id, kind) + Weight(b, id, kind)
  {
    if a == [] {
      assert a + b == b;
    } else {
      WeightJoins(a[1..], b, id, kind);
      assert (a + b)[1..] == a[1..] + b;
    }
  }

  ghost predicate Distinct(bs: seq<Ballot>) { forall i, j :: 0 <= i < j < |bs| ==> bs[i].mark != bs[j].mark }

  ghost predicate MarkedBy(b: Ballot, id: ProposalId, kind: nat, now: nat, before: set<Mark>, after: set<Mark>) {
    b.mark.id == id && b.kind == kind && b.at == now && b.mark !in before && b.mark in after
  }

  /** A committed vote adds exactly the weight of its ballots, and none of their marks was there before. */
  lemma {:induction false} RecordedOnce(c: Charter, marks: set<Mark>, id: ProposalId, voter: Voter, kind: nat,
                                        votes: seq<ConfigVote>, now: nat, i: nat)
    requires i <= |votes| && RecordFrom(c, marks, id, voter, votes, i).Some?
    ensures forall k :: i <= k < |votes| ==> votes[k].config < |c.trackers|
    ensures var r, bs := RecordFrom(c, marks, id, voter, votes, i).value, BallotsFrom(c, id, voter, kind, votes, now, i);
            && marks <= r.0 && Distinct(bs) && (forall b :: b in bs ==> MarkedBy(b, id, kind, now, marks, r.0))
            && (forall other, k :: Weight(bs, other, k) == if other == id && k == kind then r.1 else 0)
    decreases |votes| - i
  {
    if i < |votes| {
      var mark := Mark(c.trackers[votes[i].config], id, voter);
      RecordedOnce(c, marks + {mark}, id, voter, kind, votes, now, i + 1);
      var bs := BallotsFrom(c, id, voter, kind, votes, now, i);
      assert bs[1..] == BallotsFrom(c, id, voter, kind, votes, now, i + 1);
      forall j, k | 0 <= j < k < |bs| ensures bs[j].mark != bs[k].mark {
        assert bs[1..][k - 1] == bs[k] && bs[k] in bs[1..];
        assert j > 0 ==> bs[1..][j - 1] == bs[j];
      }
      forall b | b in bs ensures MarkedBy(b, id, kind, now, marks, RecordFrom(c, marks, id, voter, votes, i).value.0) {
        assert b == bs[0] || b in bs[1..];
      }
    }
  }
}

/** The charter object. */
module CharterContract {
  import opened Options
  import opened CharterModel

  class CharterVotes {
    const votingPeriod: nat
    const quorumThreshold: nat
    const basisNumerator: nat
    var trackers: seq<Tracker>
    var proposalVoting: map<ProposalId, Voting>
    var marks: set<Mark> // in all trackers
    var lateVoteCast: set<ProposalId>

    function State(): Charter
      reads this
    {
      Charter(votingPeriod, quorumThreshold, basisNumerator, trackers, proposalVoting, marks, lateVoteCast)
    }

    constructor (votingPeriod: nat, quorum: nat, basis: nat, trackers: seq<Tracker>)
      requires ValidBasis(basis) && trackers != []
      ensures State() == Charter(votingPeriod, quorum, basis, trackers, map[], {}, {})
    {
      this.votingPeriod, quorumThreshold, basisNumerator, this.trackers := votingPeriod, quorum, basis, trackers;
      proposalVoting, marks, lateVoteCast := map[], {}, {};
    }

    method InitializeProposal(id: ProposalId, now: nat)
      modifies this`proposalVoting
      ensures State() == Initialize(old(State()), id, now)
      ensures forall at: nat :: at < now + MIN_VOTING_DELAY ==> !Open(proposalVoting[id], at)
      ensures forall at: nat :: !Passed(State(), proposalVoting[id], at)
      ensures forall other :: other != id && other in old(proposalVoting) ==>
                other in proposalVoting && proposalVoting[other] == old(proposalVoting[other])
    {
      proposalVoting := proposalVoting[id := Voting(now + MIN_VOTING_DELAY, now + MIN_VOTING_DELAY + votingPeriod, 0, 0, 0)];
    }

    method CastVote(id: ProposalId, voter: Voter, kind: nat, votes: seq<ConfigVote>, now: nat) returns (ok: bool)
      modifies this`proposalVoting, this`marks, this`lateVoteCast
      ensures ok == CharterModel.CastVote(old(State()), id, voter, kind, votes, now).Some?
      ensures State() == if ok then CharterModel.CastVote(old(State()), id, voter, kind, votes, now).value else old(State())
    {
      ok := false;
      if |votes| == 0 || id !in proposalVoting { return; }
      var proposal := proposalVoting[id];
      if now < proposal.start { return; }
      if now > proposal.end {
        if id !in lateVoteCast {
          lateVoteCast := lateVoteCast + {id};
          ok := true;
        }
        return;
      }
      ghost var before := State();
      var marks0 := marks;
      var totalWeight: nat := 0;
      for i := 0 to |votes|
        invariant unchanged(`proposalVoting, `lateVoteCast, `trackers)
        invariant var left := RecordFrom(before, marks, id, voter, votes, i);
                  RecordFrom(before, marks0, id, voter, votes, 0)
                  == if left.None? then None else Some((left.value.0, totalWeight + left.value.1))
      {
        if votes[i].config >= |trackers| || votes[i].weight == 0 {
          marks := marks0;
          return;
        }
        var mark := Mark(trackers[votes[i].config], id, voter);
        if mark in marks {
          marks := marks0;
          return;
        }
        marks := marks + {mark};
        totalWeight := totalWeight + votes[i].weight;
      }
      if kind == YES {
        proposalVoting := proposalVoting[id := proposal.(yes := proposal.yes + totalWeight)];
      } else if kind == NO {
        proposalVoting := proposalVoting[id := proposal.(no := proposal.no + totalWeight)];
      } else if kind == ABSTAIN {
        proposalVoting := proposalVoting[id := proposal.(abstain := proposal.abstain + totalWeight)];
      } else {
        marks := marks0;
        return;
      }
      ok := true;
    }
  }
}

/** The council: proposals as lists of transactions, run in order once their charter has passed them. */
module CouncilModel {
  import opened Options
  import opened CharterModel

  type Address = nat
  type Tx = nat // a transaction stands for its own hash

  datatype Phase = Active | Failed | Executed | Timelocked | Executable | Expired

  datatype Proposal = Proposal(charter: Address, txs: seq<Tx>, timelock: nat, execution: nat, counter: nat)

  /** A transaction handed to `executeProposal`, and whether its call will succeed. */
  datatype Attempt = Attempt(tx: Tx, succeeds: bool)

  datatype Setting = TimelockPeriod(n: nat) | ExecutionPeriod(n: nat) | CurrentCharter(a: Address) | MaxActive(n: nat)

  datatype Council = Council(owner: Address, charters: map<Address, Charter>, charter: Address, timelock: nat, execution: nat,
                             proposals: seq<Proposal>, active: nat, maxActive: nat)

  datatype Op =
    | Submit(isProposer: bool, txs: seq<Tx>)
    | Execute(id: ProposalId, attempts: seq<Attempt>)
    | Vote(charter: Address, id: ProposalId, voter: Voter, kind: nat, votes: seq<ConfigVote>)
    | Configure(caller: Address, setting: Setting)

  /** `proposalState` of a known proposal. */
  function PhaseOf(p: Proposal, ch: Charter, v: Voting, now: nat): Phase {
    if now <= v.end then Active
    else if !Passed(ch, v, now) then Failed
    else if p.counter == |p.txs| then Executed
    else if now <= v.end + p.timelock then Timelocked
    else if now <= v.end + p.timelock + p.execution then Executable
    else Expired
  }

  /** The loop of `executeProposal` from attempt i on. */
  function ExecuteFrom(p: Proposal, ch: Charter, v: Voting, attempts: seq<Attempt>, now: nat, i: nat): Option<Proposal>
    requires i <= |attempts|
    decreases |attempts| - i
  {
    if i == |attempts| then Some(p)
    else if PhaseOf(p, ch, v, now) != Executable || p.counter >= |p.txs| then None
    else if p.txs[p.counter] != attempts[i].tx || !attempts[i].succeeds then None
    else ExecuteFrom(p.(counter := p.counter + 1), ch, v, attempts, now, i + 1)
  }

  /** The charter of a proposal exists and has its voting record. */
  predicate Known(c: Council, id: ProposalId)
    requires id < |c.proposals|
  {
    c.proposals[id].charter in c.charters && id in c.charters[c.proposals[id].charter].votings
  }

  predicate WellFormed(c: Council) { forall id: nat :: id < |c.proposals| ==> Known(c, id) }

  function CharterOf(c: Council, id: ProposalId): Charter
    requires WellFormed(c) && id < |c.proposals|
  {
    assert Known(c, id);
    c.charters[c.proposals[id].charter]
  }

  function VotingOf(c: Council, id: ProposalId): Voting
    requires WellFormed(c) && id < |c.proposals|
  {
    assert Known(c, id);
    CharterOf(c, id).votings[id]
  }

  function PhaseAt(c: Council, id: ProposalId, now: nat): Phase
    requires WellFormed(c) && id < |c.proposals|
  {
    PhaseOf(c.proposals[id], CharterOf(c, id), VotingOf(c, id), now)
  }

  function Submitted(c: Council, isProposer: bool, txs: seq<Tx>, now: nat): Option<Council> {
    if c.active >= c.maxActive || c.charter !in c.charters || !isProposer then None
    else
      var p := Proposal(c.charter, txs, c.timelock, c.execution, 0);
      var ch := Initialize(c.charters[c.charter], |c.proposals|, now);
      Some(c.(proposals := c.proposals + [p], charters := c.charters[c.charter := ch], active := c.active + 1))
  }

  function ExecutedBy(c: Council, id: ProposalId, attempts: seq<Attempt>, now: nat): Option<Council>
    requires WellFormed(c)
  {
    if attempts == [] || id >= |c.proposals| then None
    else
      var p := c.proposals[id];
      var total := p.counter + |attempts|;
      if total > |p.txs| then None
      else match ExecuteFrom(p, CharterOf(c, id), VotingOf(c, id), attempts, now, 0)
           case None => None
           case Some(q) =>
             Some(c.(proposals := c.proposals[id := q],
                     active := if total == |p.txs| && c.active > 0 then c.active - 1 else c.active))
  }

  function Voted(c: Council, a: Address, id: ProposalId, voter: Voter, kind: nat, votes: seq<ConfigVote>, now: nat): Option<Council> {
    if a !in c.charters then None
    else match CastVote(c.charters[a], id, voter, kind, votes, now)
         case None => None
         case Some(ch) => Some(c.(charters := c.charters[a := ch]))
  }

  function Configured(c: Council, caller: Address, setting: Setting): Option<Council> {
    if caller != c.owner then None
    else match setting
         case TimelockPeriod(n) => Some(c.(timelock := n))
         case ExecutionPeriod(n) => Some(c.(execution := n))
         case CurrentCharter(a) => if a == 0 then None else Some(c.(charter := a))
         case MaxActive(n) => Some(c.(maxActive := n))
  }

  /** The council after a committed call; None when it reverts. */
  function Apply(c: Council, op: Op, now: nat): Option<Council>
    requires WellFormed(c)
  {
    match op
    case Submit(isProposer, txs) => Submitted(c, isProposer, txs, now)
    case Execute(id, attempts) => ExecutedBy(c, id, attempts, now)
    case Vote(a, id, voter, kind, votes) => Voted(c, a, id, voter, kind, votes, now)
    case Configure(caller, setting) => Configured(c, caller, setting)
  }

  /** The same proposals, each in the same state at every time. */
  ghost predicate SamePhases(c: Council, d: Council)
    requires WellFormed(c) && WellFormed(d)
  {
    |c.proposals| == |d.proposals| && forall id: nat, now: nat :: id < |c.proposals| ==> PhaseAt(d, id, now) == PhaseAt(c, id, now)
  }

  lemma SettingsKeepPhases(c: Council, caller: Address, setting: Setting)
    requires WellFormed(c) && Configured(c, caller, setting).Some?
    ensures var d := Configured(c, caller, setting).value; WellFormed(d) && SamePhases(c, d)
  {
    var d := Configured(c, caller, setting).value;
    assert forall k: nat :: k < |d.proposals| && Known(c, k) ==> Known(d, k);
    forall id: nat, now: nat | id < |c.proposals| ensures PhaseAt(d, id, now) == PhaseAt(c, id, now) {
      SettingsReachLaterOnly(c, caller, setting, id, [], now);
    }
  }

  /** The owner's settings reach proposals made later only: the state and the execution of every other one stay as they are. */
  lemma SettingsReachLaterOnly(c: Council, caller: Address, setting: Setting, id: ProposalId, attempts: seq<Attempt>, now: nat)
    requires WellFormed(c) && id < |c.proposals| && Configured(c, caller, setting).Some?
    ensures var d := Configured(c, caller, setting).value;
            && WellFormed(d) && PhaseAt(d, id, now) == PhaseAt(c, id, now) && VotingOf(d, id) == VotingOf(c, id)
            && ExecutedBy(d, id, attempts, now).Some? == ExecutedBy(c, id, attempts, now).Some?
            && (ExecutedBy(c, id, attempts, now).Some? ==>
                  ExecutedBy(d, id, attempts, now).value.proposals == ExecutedBy(c, id, attempts, now).value.proposals)
  {
    var d := Configured(c, caller, setting).value;
    assert forall k: nat :: k < |d.proposals| && Known(c, k) ==> Known(d, k);
  }

  // ---------------------------------------------------------------- execution

  function Txs(attempts: seq<Attempt>, i: nat): (r: seq<Tx>)
    requires i <= |attempts|
    ensures |r| == |attempts| - i
    decreases |attempts| - i
  {
    if i == |attempts| then [] else [attempts[i].tx] + Txs(attempts, i + 1)
  }

  /** The attempts from i on are exactly the next transactions of the list, and all of them succeed. */
  ghost predicate NextInLine(p: Proposal, attempts: seq<Attempt>, i: nat) {
    && i <= |attempts| && p.counter + |attempts| - i <= |p.txs|
    && Txs(attempts, i) == p.txs[p.counter..p.counter + |attempts| - i]
    && forall k :: i <= k < |attempts| ==> attempts[k].succeeds
  }

  lemma NextInLineStep(p: Proposal, attempts: seq<Attempt>, i: nat)
    requires i < |attempts| && p.counter < |p.txs|
    ensures NextInLine(p, attempts, i)
            <==> attempts[i] == Attempt(p.txs[p.counter], true) && NextInLine(p.(counter := p.counter + 1), attempts, i + 1)
  {
    var last := p.counter + |attempts| - i;
    if last <= |p.txs| {
      var rest, want := Txs(attempts, i + 1), p.txs[p.counter + 1..last];
      assert p.txs[p.counter..last] == [p.txs[p.counter]] + want;
      assert ([attempts[i].tx] + rest)[0] == attempts[i].tx && ([attempts[i].tx] + rest)[1..] == rest;
      assert ([p.txs[p.counter]] + want)[0] == p.txs[p.counter] && ([p.txs[p.counter]] + want)[1..] == want;
    }
  }

  lemma {:induction false} ExecuteFromExactly(p: Proposal, ch: Charter, v: Voting, attempts: seq<Attempt>, now: nat, i: nat)
    requires i <= |attempts| && p.counter <= |p.txs|
    ensures ExecuteFrom(p, ch, v, attempts, now, i).Some?
            <==> i == |attempts| || (PhaseOf(p, ch, v, now) == Executable && NextInLine(p, attempts, i))
    ensures ExecuteFrom(p, ch, v, attempts, now, i).Some?
            ==> ExecuteFrom(p, ch, v, attempts, now, i).value == p.(counter := p.counter + |attempts| - i)
    decreases |attempts| - i
  {
    if i < |attempts| && p.counter < |p.txs| {
      var q := p.(counter := p.counter + 1);
      ExecuteFromExactly(q, ch, v, attempts, now, i + 1);
      NextInLineStep(p, attempts, i);
      if i + 1 == |attempts| { assert NextInLine(q, attempts, i + 1) by { assert q.txs[q.counter..q.counter] == []; } }
    }
  }

  /**
   `executeProposal` commits exactly when the proposal is executable and it is handed, in order, some
   of the transactions that come next, all of which succeed; it then moves past exactly those.
   */
  lemma ExecutesExactly(c: Council, id: ProposalId, attempts: seq<Attempt>, now: nat)
    requires WellFormed(c) && forall p :: p in c.proposals ==> p.counter <= |p.txs|
    ensures ExecutedBy(c, id, attempts, now).Some?
            <==> attempts != [] && id < |c.proposals| && PhaseAt(c, id, now) == Executable && NextInLine(c.proposals[id], attempts, 0)
    ensures ExecutedBy(c, id, attempts, now).Some? ==>
              var p, d := c.proposals[id], ExecutedBy(c, id, attempts, now).value;
              d.proposals == c.proposals[id := p.(counter := p.counter + |attempts|)] && d.charters == c.charters
  {
    if id < |c.proposals| {
      assert c.proposals[id] in c.proposals;
      ExecuteFromExactly(c.proposals[id], CharterOf(c, id), VotingOf(c, id), attempts, now, 0);
    }
  }

  // ---------------------------------------------------------------- whole runs

  datatype Execution = Execution(id: ProposalId, tx: Tx, at: nat)

  /** The council at a time, with every execution and every counted ballot so far. */
  datatype World = World(council: Council, now: nat, executions: seq<Execution>, ballots: seq<Ballot>)

  datatype Event = Tick(seconds: nat) | Call(op: Op)

  function ExecutionsFrom(id: ProposalId, attempts: seq<Attempt>, now: nat, i: nat): seq<Execution>
    requires i <= |attempts|
    decreases |attempts| - i
  {
    if i == |attempts| then [] else [Execution(id, attempts[i].tx, now)] + ExecutionsFrom(id, attempts, now, i + 1)
  }

  ghost function NewBallots(c: Council, op: Op, now: nat): seq<Ballot>
    requires WellFormed(c) && Apply(c, op, now).Some?
  {
    match op
    case Vote(a, id, voter, kind, votes) =>
      var ch := c.charters[a];
      if now > ch.votings[id].end then []
      else RecordedOnce(ch, ch.marks, id, voter, kind, votes, now, 0); BallotsFrom(ch, id, voter, kind, votes, now, 0)
    case _ => []
  }

  ghost function Step(w: World, e: Event): World
    requires WellFormed(w.council)
  {
    match e
    case Tick(seconds) => w.(now := w.now + seconds)
    case Call(op) =>
      match Apply(w.council, op, w.now)
      case None => w
      case Some(c) =>
        w.(council := c, ballots := w.ballots + NewBallots(w.council, op, w.now),
           executions := w.executions + if op.Execute? then ExecutionsFrom(op.id, op.attempts, w.now, 0) else [])
  }

  lemma StepKeepsForm(w: World, e: Event)
    requires WellFormed(w.council)
    ensures WellFormed(Step(w, e).council)
  {
    if e.Call? && Apply(w.council, e.op, w.now).Some? {
      var c, d := w.council, Step(w, e).council;
      forall id: nat | id < |d.proposals| ensures Known(d, id) {
        if id < |c.proposals| { assert Known(c, id); }
        if e.op.Execute? { ExecuteKeepsFields(c.proposals[e.op.id], CharterOf(c, e.op.id), VotingOf(c, e.op.id), e.op.attempts, w.now, 0); }
      }
    }
  }

  lemma {:induction false} ExecuteKeepsFields(p: Proposal, ch: Charter, v: Voting, attempts: seq<Attempt>, now: nat, i: nat)
    requires i <= |attempts| && ExecuteFrom(p, ch, v, attempts, now, i).Some?
    ensures var q := ExecuteFrom(p, ch, v, attempts, now, i).value; q == p.(counter := q.counter)
    decreases |attempts| - i
  {
    if i < |attempts| { ExecuteKeepsFields(p.(counter := p.counter + 1), ch, v, attempts, now, i + 1); }
  }

  ghost function Run(w: World, events: seq<Event>): (r: World)
    requires WellFormed(w.council)
    ensures WellFormed(r.council)
    decreases |events|
  {
    if events == [] then w else StepKeepsForm(w, events[0]); Run(Step(w, events[0]), events[1..])
  }

  /** The transactions of one proposal among the first n executions, in the order they ran. */
  function RanUpTo(xs: seq<Execution>, id: ProposalId, n: nat): seq<Tx>
    requires n <= |xs|
  {
    if n == 0 then [] else RanUpTo(xs, id, n - 1) + if xs[n - 1].id == id then [xs[n - 1].tx] else []
  }

  function Ran(xs: seq<Execution>, id: ProposalId): seq<Tx> { RanUpTo(xs, id, |xs|) }

  lemma {:induction false} RanInPrefix(a: seq<Execution>, b: seq<Execution>, id: ProposalId, n: nat)
    requires n <= |a|
    ensures RanUpTo(a + b, id, n) == RanUpTo(a, id, n)
  {
    if n > 0 { RanInPrefix(a, b, id, n - 1); }
  }

  lemma {:induction false} RanPastPrefix(a: seq<Execution>, b: seq<Execution>, id: ProposalId, n: nat)
    requires n <= |b|
    ensures RanUpTo(a + b, id, |a| + n) == Ran(a, id) + RanUpTo(b, id, n)
  {
    if n == 0 {
      RanInPrefix(a, b, id, |a|);
    } else {
      RanPastPrefix(a, b, id, n - 1);
      assert (a + b)[|a| + n - 1] == b[n - 1];
    }
  }

  lemma RanJoins(a: seq<Execution>, b: seq<Execution>, id: ProposalId)
    ensures Ran(a + b, id) == Ran(a, id) + Ran(b, id)
  {
    RanPastPrefix(a, b, id, |b|);
  }

  /** Executed inside the window, after a vote that passed. */
  ghost predicate InWindow(c: Council, x: Execution)
    requires WellFormed(c)
  {
    && x.id < |c.proposals|
    && var p, v := c.proposals[x.id], VotingOf(c, x.id);
       Passed(CharterOf(c, x.id), v, x.at) && v.end + p.timelock < x.at <= v.end + p.timelock + p.execution
  }

  predicate Complete(p: Proposal) { p.txs != [] && p.counter == |p.txs| }

  /** Proposals among the first n that never ran their last transaction. */
  function Unfinished(ps: seq<Proposal>, n: nat): nat
    requires n <= |ps|
  {
    if n == 0 then 0 else Unfinished(ps, n - 1) + if Complete(ps[n - 1]) then 0 else 1
  }

  /** The transactions run are the first ones of the list, each once and in order. */
  ghost predicate RanPrefix(w: World, id: ProposalId)
    requires id < |w.council.proposals|
  {
    var p := w.council.proposals[id];
    p.counter <= |p.txs| && Ran(w.executions, id) == p.txs[..p.counter]
  }

  /** The tallies are the weights of the proposal's ballots. */
  ghost predicate Counted(w: World, id: ProposalId)
    requires WellFormed(w.council) && id < |w.council.proposals|
  {
    CountOf(VotingOf(w.council, id), w.ballots, id)
  }

  ghost predicate CountOf(v: Voting, bs: seq<Ballot>, id: ProposalId) {
    v.yes == Weight(bs, id, YES) && v.no == Weight(bs, id, NO) && v.abstain == Weight(bs, id, ABSTAIN)
  }

  /** Cast while voting was open, and remembered by its tracker. */
  ghost predicate Cast(c: Council, b: Ballot)
    requires WellFormed(c)
  {
    b.mark.id < |c.proposals| && Open(VotingOf(c, b.mark.id), b.at) && b.mark in CharterOf(c, b.mark.id).marks
  }

  /** A charter has voting records only for proposals made under it. */
  ghost predicate OwnVotings(c: Council, a: Address)
    requires a in c.charters
  {
    forall id :: id in c.charters[a].votings ==> id < |c.proposals| && c.proposals[id].charter == a
  }

  ghost predicate Inv(w: World) {
    && WellFormed(w.council)
    && (forall a :: a in w.council.charters ==> OwnVotings(w.council, a))
    && (forall id: nat :: id < |w.council.proposals| ==> RanPrefix(w, id))
    && (forall x :: x in w.executions ==> x.at <= w.now && InWindow(w.council, x))
    && (forall id: nat :: id < |w.council.proposals| ==> Counted(w, id))
    && (forall b :: b in w.ballots ==> Cast(w.council, b))
    && Distinct(w.ballots)
    && w.council.active == Unfinished(w.council.proposals, |w.council.proposals|)
  }

  // ---------------------------------------------------------------- every step keeps the invariant

  lemma NothingRan(xs: seq<Execution>, id: ProposalId)
    requires forall x :: x in xs ==> x.id != id
    ensures Ran(xs, id) == []
  {
    NothingRanUpTo(xs, id, |xs|);
  }

  lemma {:induction false} NothingRanUpTo(xs: seq<Execution>, id: ProposalId, n: nat)
    requires n <= |xs| && forall x :: x in xs ==> x.id != id
    ensures RanUpTo(xs, id, n) == []
  {
    if n > 0 { NothingRanUpTo(xs, id, n - 1); }
  }

  lemma {:induction false} NothingWeighs(bs: seq<Ballot>, id: ProposalId, kind: nat)
    requires forall b :: b in bs ==> b.mark.id != id
    ensures Weight(bs, id, kind) == 0
  {
    if bs != [] { NothingWeighs(bs[1..], id, kind); }
  }

  lemma {:induction false} UnfinishedSame(ps: seq<Proposal>, qs: seq<Proposal>, n: nat)
    requires n <= |ps| && n <= |qs| && forall k :: 0 <= k < n ==> Complete(ps[k]) == Complete(qs[k])
    ensures Unfinished(ps, n) == Unfinished(qs, n)
  {
    if n > 0 { UnfinishedSame(ps, qs, n - 1); }
  }

  /** Completing one proposal leaves one unfinished proposal less. */
  lemma {:induction false} UnfinishedDrops(ps: seq<Proposal>, id: nat, q: Proposal, n: nat)
    requires id < n <= |ps| && !Complete(ps[id]) && Complete(q)
    ensures Unfinished(ps[id := q], n) + 1 == Unfinished(ps, n)
  {
    if id == n - 1 {
      UnfinishedSame(ps, ps[id := q], n - 1);
    } else {
      UnfinishedDrops(ps, id, q, n - 1);
    }
  }

  /** Proposal id has the same content and voting window in d as in c, and has executed no less. */
  ghost predicate Evolves(c: Council, d: Council, id: ProposalId)
    requires WellFormed(c) && WellFormed(d)
  {
    && id < |c.proposals| <= |d.proposals|
    && d.proposals[id] == c.proposals[id].(counter := d.proposals[id].counter)
    && c.proposals[id].counter <= d.proposals[id].counter
    && VotingOf(d, id).start == VotingOf(c, id).start && VotingOf(d, id).end == VotingOf(c, id).end
    && CharterOf(d, id).quorum == CharterOf(c, id).quorum && CharterOf(d, id).basis == CharterOf(c, id).basis
  }

  /** And more: an ended vote is untouched, and no tracker forgets. */
  ghost predicate Preserves(c: Council, d: Council, now: nat, id: ProposalId)
    requires WellFormed(c) && WellFormed(d)
  {
    && Evolves(c, d, id)
    && (now > VotingOf(c, id).end ==> VotingOf(d, id) == VotingOf(c, id))
    && CharterOf(c, id).marks <= CharterOf(d, id).marks
  }

  /** What the logs say stays true of a council that preserves every proposal. */
  lemma LogsHold(w: World, d: Council)
    requires Inv(w) && WellFormed(d)
    requires forall id: nat :: id < |w.council.proposals| ==> Preserves(w.council, d, w.now, id)
    ensures forall x :: x in w.executions ==> x.at <= w.now && InWindow(d, x)
    ensures forall b :: b in w.ballots ==> Cast(d, b)
  {
    forall x | x in w.executions ensures InWindow(d, x) { assert InWindow(w.council, x) && Preserves(w.council, d, w.now, x.id); }
    forall b | b in w.ballots ensures Cast(d, b) { assert Cast(w.council, b) && Preserves(w.council, d, w.now, b.mark.id); }
  }

  /** A submission leaves every earlier proposal as it is. */
  lemma SubmitPreserves(c: Council, d: Council, isProposer: bool, txs: seq<Tx>, now: nat, id: ProposalId)
    requires WellFormed(c) && Submitted(c, isProposer, txs, now) == Some(d) && WellFormed(d) && id < |c.proposals|
    ensures Preserves(c, d, now, id) && VotingOf(d, id) == VotingOf(c, id) && d.proposals[id] == c.proposals[id]
  {
    assert Known(c, id) && Known(d, id);
  }

  /** And the new one has run nothing and been voted on by nobody. */
  lemma SubmitStartsEmpty(w: World, z: World)
    requires Inv(w) && WellFormed(z.council) && z.executions == w.executions && z.ballots == w.ballots
    requires var n := |w.council.proposals|;
             && |z.council.proposals| == n + 1 && z.council.proposals[n].counter == 0
             && var v := VotingOf(z.council, n); v.yes == v.no == v.abstain == 0
    ensures RanPrefix(z, |w.council.proposals|) && Counted(z, |w.council.proposals|)
  {
    var n := |w.council.proposals|;
    forall x | x in w.executions ensures x.id != n { assert InWindow(w.council, x); }
    forall b | b in w.ballots ensures b.mark.id != n { assert Cast(w.council, b); }
    NothingRan(w.executions, n);
    NothingWeighs(w.ballots, n, YES);
    NothingWeighs(w.ballots, n, NO);
    NothingWeighs(w.ballots, n, ABSTAIN);
  }

  /** One more proposal, given only what it does to the council. */
  lemma NewProposalKeeps(w: World, z: World)
    requires Inv(w) && WellFormed(z.council) && z.executions == w.executions && z.ballots == w.ballots && z.now == w.now
    requires |z.council.proposals| == |w.council.proposals| + 1 && z.council.proposals[|w.council.proposals|].counter == 0
    requires forall id: nat :: id < |w.council.proposals| ==> Preserves(w.council, z.council, w.now, id)
    requires forall id: nat :: id < |w.council.proposals| ==>
               z.council.proposals[id] == w.council.proposals[id] && VotingOf(z.council, id) == VotingOf(w.council, id)
    requires forall a :: a in z.council.charters ==> OwnVotings(z.council, a)
    requires RanPrefix(z, |w.council.proposals|) && Counted(z, |w.council.proposals|)
    requires z.council.active == w.council.active + 1
    ensures Inv(z)
  {
    var c, d, n := w.council, z.council, |w.council.proposals|;
    forall id: nat | id < n ensures RanPrefix(z, id) && Counted(z, id) { assert RanPrefix(w, id) && Counted(w, id); }
    LogsHold(w, d);
    UnfinishedSame(c.proposals, d.proposals, n);
    assert Unfinished(d.proposals, n + 1) == Unfinished(d.proposals, n) + 1;
  }

  lemma SubmitKeeps(w: World, isProposer: bool, txs: seq<Tx>)
    requires Inv(w) && Submitted(w.council, isProposer, txs, w.now).Some?
    ensures Inv(Step(w, Call(Submit(isProposer, txs))))
  {
    var e := Call(Submit(isProposer, txs));
    var z := Step(w, e);
    var c, d, n := w.council, z.council, |w.council.proposals|;
    StepKeepsForm(w, e);
    assert z.executions == w.executions && z.ballots == w.ballots;
    forall id: nat | id < n
      ensures Preserves(c, d, w.now, id) && VotingOf(d, id) == VotingOf(c, id) && d.proposals[id] == c.proposals[id]
    {
      SubmitPreserves(c, d, isProposer, txs, w.now, id);
    }
    forall a | a in d.charters ensures OwnVotings(d, a) { assert OwnVotings(c, a); }
    assert Known(d, n);
    SubmitStartsEmpty(w, z);
    NewProposalKeeps(w, z);
  }

  /** What one call executes, seen from any proposal. */
  lemma {:induction false} RanByCall(id: ProposalId, attempts: seq<Attempt>, now: nat, i: nat, other: ProposalId)
    requires i <= |attempts|
    ensures Ran(ExecutionsFrom(id, attempts, now, i), other) == if other == id then Txs(attempts, i) else []
    decreases |attempts| - i
  {
    if i < |attempts| {
      RanByCall(id, attempts, now, i + 1, other);
      RanOne(Execution(id, attempts[i].tx, now), other);
      RanJoins([Execution(id, attempts[i].tx, now)], ExecutionsFrom(id, attempts, now, i + 1), other);
    }
  }

  lemma RanOne(x: Execution, id: ProposalId)
    ensures Ran([x], id) == if x.id == id then [x.tx] else []
  {
    assert RanUpTo([x], id, 0) == [];
  }

  lemma {:induction false} ExecutionsStamped(id: ProposalId, attempts: seq<Attempt>, now: nat, i: nat)
    requires i <= |attempts|
    ensures forall x :: x in ExecutionsFrom(id, attempts, now, i) ==> x.id == id && x.at == now
    decreases |attempts| - i
  {
    if i < |attempts| { ExecutionsStamped(id, attempts, now, i + 1); }
  }

  /** The transactions accepted continue the proposal's list. */
  lemma TxsContinue(p: Proposal, attempts: seq<Attempt>)
    requires NextInLine(p, attempts, 0)
    ensures p.txs[..p.counter] + Txs(attempts, 0) == p.txs[..p.counter + |attempts|]
  {
    Rejoin(p.txs, p.counter, p.counter + |attempts|);
  }

  lemma Rejoin(txs: seq<Tx>, i: nat, j: nat)
    requires i <= j <= |txs|
    ensures txs[..i] + txs[i..j] == txs[..j]
  {
  }

  lemma CountersInRange(w: World)
    requires Inv(w)
    ensures forall p :: p in w.council.proposals ==> p.counter <= |p.txs|
  {
    forall p | p in w.council.proposals ensures p.counter <= |p.txs| {
      var k: nat :| k < |w.council.proposals| && w.council.proposals[k] == p;
      assert RanPrefix(w, k);
    }
  }

  /** What a committed execution does to its proposal keeps every proposal's prefix. */
  lemma ExecuteKeepsPrefix(w: World, id: ProposalId, attempts: seq<Attempt>, z: World, k: ProposalId)
    requires id < |w.council.proposals| && k < |w.council.proposals| && RanPrefix(w, k) && RanPrefix(w, id)
    requires NextInLine(w.council.proposals[id], attempts, 0)
    requires z.executions == w.executions + ExecutionsFrom(id, attempts, w.now, 0)
    requires var p := w.council.proposals[id]; z.council.proposals == w.council.proposals[id := p.(counter := p.counter + |attempts|)]
    ensures RanPrefix(z, k)
  {
    var p := w.council.proposals[id];
    RanJoins(w.executions, ExecutionsFrom(id, attempts, w.now, 0), k);
    RanByCall(id, attempts, w.now, 0, k);
    TxsContinue(p, attempts);
  }

  /** Votings, tallies and ballots do not depend on how far proposals have executed. */
  lemma ExecuteKeepsVotes(w: World, z: World)
    requires Inv(w) && WellFormed(z.council) && z.council.charters == w.council.charters && z.ballots == w.ballots
    requires |z.council.proposals| == |w.council.proposals|
    requires forall k :: 0 <= k < |z.council.proposals| ==>
               z.council.proposals[k] == w.council.proposals[k].(counter := z.council.proposals[k].counter)
               && w.council.proposals[k].counter <= z.council.proposals[k].counter
    ensures forall a :: a in z.council.charters ==> OwnVotings(z.council, a)
    ensures forall k: nat :: k < |z.council.proposals| ==> Counted(z, k)
    ensures forall b :: b in z.ballots ==> Cast(z.council, b)
    ensures forall x :: x in w.executions ==> InWindow(z.council, x)
  {
    var c, d := w.council, z.council;
    forall a | a in d.charters ensures OwnVotings(d, a) { assert OwnVotings(c, a); }
    forall k: nat | k < |d.proposals| ensures VotingOf(d, k) == VotingOf(c, k) && Counted(z, k) { assert Known(c, k) && Counted(w, k); }
    forall k: nat | k < |c.proposals| ensures Preserves(c, d, w.now, k) { assert Known(c, k) && Known(d, k); }
    LogsHold(w, d);
  }

  lemma ExecuteKeeps(w: World, id: ProposalId, attempts: seq<Attempt>)
    requires Inv(w) && ExecutedBy(w.council, id, attempts, w.now).Some?
    ensures Inv(Step(w, Call(Execute(id, attempts))))
  {
    var e := Call(Execute(id, attempts));
    var z, c := Step(w, e), w.council;
    CountersInRange(w);
    ExecutesExactly(c, id, attempts, w.now);
    StepKeepsForm(w, e);
    var p, added := c.proposals[id], ExecutionsFrom(id, attempts, w.now, 0);
    var q := p.(counter := p.counter + |attempts|);
    assert z.ballots == w.ballots && z.executions == w.executions + added && z.council.proposals == c.proposals[id := q];
    ExecuteKeepsVotes(w, z);
    assert RanPrefix(w, id);
    forall k: nat | k < |c.proposals| ensures RanPrefix(z, k) {
      assert RanPrefix(w, k);
      ExecuteKeepsPrefix(w, id, attempts, z, k);
    }
    ExecutionsStamped(id, attempts, w.now, 0);
    forall x | x in z.executions ensures x.at <= z.now && InWindow(z.council, x) { assert x in w.executions || x in added; }
    if Complete(q) {
      UnfinishedDrops(c.proposals, id, q, |c.proposals|);
    } else {
      UnfinishedSame(c.proposals, z.council.proposals, |c.proposals|);
    }
  }

  /** Counting new ballots of one kind for one proposal: its tally takes their weight, the others' are as before. */
  lemma TallyCounts(v: Voting, before: seq<Ballot>, bs: seq<Ballot>, k: ProposalId, id: ProposalId, kind: nat, weight: nat)
    requires CountOf(v, before, k) && Tally(v, kind, weight).Some?
    requires forall other, sort :: Weight(bs, other, sort) == if other == id && sort == kind then weight else 0
    ensures CountOf(if k == id then Tally(v, kind, weight).value else v, before + bs, k)
  {
    WeightJoins(before, bs, k, YES);
    WeightJoins(before, bs, k, NO);
    WeightJoins(before, bs, k, ABSTAIN);
  }

  /** A counted vote. */
  lemma VoteKeeps(w: World, a: Address, id: ProposalId, voter: Voter, kind: nat, votes: seq<ConfigVote>)
    requires Inv(w) && Voted(w.council, a, id, voter, kind, votes, w.now).Some?
    requires w.now <= w.council.charters[a].votings[id].end
    ensures Inv(Step(w, Call(Vote(a, id, voter, kind, votes))))
  {
    var e := Call(Vote(a, id, voter, kind, votes));
    var z := Step(w, e);
    var c, d := w.council, z.council;
    var ch := c.charters[a];
    StepKeepsForm(w, e);
    RecordedOnce(ch, ch.marks, id, voter, kind, votes, w.now, 0);
    var bs := BallotsFrom(ch, id, voter, kind, votes, w.now, 0);
    assert z.executions == w.executions && z.ballots == w.ballots + bs;
    assert OwnVotings(c, a);
    forall x | x in d.charters ensures OwnVotings(d, x) { assert OwnVotings(c, x); }
    forall k: nat | k < |d.proposals| ensures RanPrefix(z, k) { assert RanPrefix(w, k); }
    forall k: nat | k < |d.proposals|
      ensures Counted(z, k) && Preserves(c, d, w.now, k)
    {
      assert Known(c, k) && Known(d, k) && Counted(w, k);
      TallyCounts(VotingOf(c, k), w.ballots, bs, k, id, kind, RecordFrom(ch, ch.marks, id, voter, votes, 0).value.1);
    }
    LogsHold(w, d);
    forall b | b in bs ensures Cast(d, b) { assert MarkedBy(b, id, kind, w.now, ch.marks, d.charters[a].marks); }
    forall prior, b | prior in w.ballots && b in bs ensures prior.mark != b.mark {
      assert Cast(c, prior) && MarkedBy(b, id, kind, w.now, ch.marks, d.charters[a].marks);
    }
    DistinctJoins(w.ballots, bs);
  }

  lemma DistinctJoins(a: seq<Ballot>, b: seq<Ballot>)
    requires Distinct(a) && Distinct(b) && forall x, y :: x in a && y in b ==> x.mark != y.mark
    ensures Distinct(a + b)
  {
    forall i, j | 0 <= i < j < |a + b| ensures (a + b)[i].mark != (a + b)[j].mark {
      if i < |a| <= j { assert a[i] in a && b[j - |a|] in b; }
    }
  }

  /** Changes that touch no proposal and no tally: the late flag and the owner's settings. */
  lemma QuietKeeps(w: World, d: Council)
    requires Inv(w) && d.proposals == w.council.proposals && d.active == w.council.active
    requires d.charters.Keys == w.council.charters.Keys
    requires forall a :: a in d.charters ==> d.charters[a] == w.council.charters[a].(late := d.charters[a].late)
    ensures Inv(w.(council := d))
  {
    var c, z := w.council, w.(council := d);
    forall k: nat | k < |d.proposals| ensures Known(d, k) { assert Known(c, k); }
    forall k: nat | k < |d.proposals|
      ensures VotingOf(d, k) == VotingOf(c, k) && CharterOf(d, k) == CharterOf(c, k).(late := CharterOf(d, k).late)
    {
      assert Known(c, k) && Known(d, k);
    }
    forall a | a in d.charters ensures OwnVotings(d, a) { assert OwnVotings(c, a); }
    forall k: nat | k < |d.proposals| ensures RanPrefix(z, k) && Counted(z, k) { assert RanPrefix(w, k) && Counted(w, k); }
    forall k: nat | k < |c.proposals| ensures Preserves(c, d, w.now, k) { assert Known(c, k) && Known(d, k); }
    LogsHold(w, d);
  }

  lemma StepKeeps(w: World, e: Event)
    requires Inv(w)
    ensures Inv(Step(w, e))
  {
    match e
    case Tick(_) =>
      var z := Step(w, e);
      forall id: nat | id < |z.council.proposals| ensures RanPrefix(z, id) && Counted(z, id) {
        assert RanPrefix(w, id) && Counted(w, id);
      }
    case Call(op) =>
      if Apply(w.council, op, w.now).Some? {
        match op
        case Submit(isProposer, txs) => SubmitKeeps(w, isProposer, txs);
        case Execute(id, attempts) => ExecuteKeeps(w, id, attempts);
        case Vote(a, id, voter, kind, votes) =>
          if w.now <= w.council.charters[a].votings[id].end {
            VoteKeeps(w, a, id, voter, kind, votes);
          } else {
            QuietKeeps(w, Step(w, e).council);
            assert Step(w, e) == w.(council := Step(w, e).council);
          }
        case Configure(_, _) =>
          QuietKeeps(w, Step(w, e).council);
          assert Step(w, e) == w.(council := Step(w, e).council);
      }
  }

  /** In every run of submissions, votes, executions, settings and passing time. */
  lemma {:induction false} RunKeeps(w: World, events: seq<Event>)
    requires Inv(w)
    ensures Inv(Run(w, events))
    decreases |events|
  {
    if events != [] {
      StepKeeps(w, events[0]);
      RunKeeps(Step(w, events[0]), events[1..]);
    }
  }

  /** A newly deployed council, whose charters have seen no proposal, starts in the invariant. */
  lemma DeployedInv(c: Council, now: nat)
    requires c.proposals == [] && c.active == 0
    requires forall a :: a in c.charters ==> c.charters[a].votings == map[]
    ensures Inv(World(c, now, [], []))
  {
    forall a | a in c.charters ensures OwnVotings(c, a) {}
  }

  /** So the log of executions holds, for each proposal, a prefix of its list, every entry inside its window. */
  lemma ExecutionsInOrder(w: World, events: seq<Event>, id: ProposalId)
    requires Inv(w) && id < |Run(w, events).council.proposals|
    ensures var r := Run(w, events); var p := r.council.proposals[id];
            p.counter <= |p.txs| && Ran(r.executions, id) == p.txs[..p.counter]
    ensures var r := Run(w, events); forall x :: x in r.executions ==> x.at <= r.now && InWindow(r.council, x)
  {
    RunKeeps(w, events);
    assert RanPrefix(Run(w, events), id);
  }

  /** No voter is counted twice by a tracker, only votes cast in time count, and the tallies are what they add up to. */
  lemma TalliesAreBallots(w: World, events: seq<Event>, id: ProposalId)
    requires Inv(w) && id < |Run(w, events).council.proposals|
    ensures var r := Run(w, events); var v := VotingOf(r.council, id);
            v.yes == Weight(r.ballots, id, YES) && v.no == Weight(r.ballots, id, NO) && v.abstain == Weight(r.ballots, id, ABSTAIN)
    ensures var r := Run(w, events); Distinct(r.ballots) && forall b :: b in r.ballots ==> Cast(r.council, b)
  {
    RunKeeps(w, events);
    assert Counted(Run(w, events), id);
  }

  // ---------------------------------------------------------------- phases only move forward

  lemma StepEvolves(w: World, e: Event, id: ProposalId)
    requires Inv(w) && id < |w.council.proposals|
    ensures WellFormed(Step(w, e).council) && Evolves(w.council, Step(w, e).council, id)
    ensures w.now > VotingOf(w.council, id).end ==> VotingOf(Step(w, e).council, id) == VotingOf(w.council, id)
    ensures Step(w, e).council.proposals[id] != w.council.proposals[id]
            ==> e.Call? && e.op.Execute? && e.op.id == id && PhaseAt(w.council, id, w.now) == Executable
  {
    StepKeepsForm(w, e);
    var c := w.council;
    assert Known(c, id) && Known(Step(w, e).council, id);
    if e.Call? && e.op.Execute? && Apply(c, e.op, w.now).Some? {
      CountersInRange(w);
      ExecutesExactly(c, e.op.id, e.op.attempts, w.now);
    }
    if e.Call? && e.op.Vote? && Apply(c, e.op, w.now).Some? { assert OwnVotings(c, e.op.charter); }
  }

  predicate Later(a: Phase, b: Phase) {
    || a == b
    || a.Active?
    || (a.Timelocked? && (b.Executable? || b.Executed? || b.Expired?))
    || (a.Executable? && (b.Executed? || b.Expired?))
  }

  /** One step: time moves a phase forward; a call moves none, except that executing the last transaction completes. */
  lemma StepMovesForward(w: World, e: Event, id: ProposalId)
    requires Inv(w) && id < |w.council.proposals|
    ensures WellFormed(Step(w, e).council) && id < |Step(w, e).council.proposals|
    ensures var a, b := PhaseAt(w.council, id, w.now), PhaseAt(Step(w, e).council, id, Step(w, e).now);
            && Later(a, b)
            && (e.Call? && a != b ==> a == Executable && b == Executed && e.op.Execute? && e.op.id == id)
            && (w.council.proposals[id].txs == [] ==> b.Active? || b.Failed? || b.Executed?)
            && (a.Timelocked? ==> e.Tick? || b == a)
  {
    StepEvolves(w, e, id);
    StepKeeps(w, e);
    assert RanPrefix(Step(w, e), id);
    assert RanPrefix(w, id);
  }

  /** In every run a proposal's phase only moves forward: Failed, Executed and Expired are final. */
  lemma {:induction false} PhasesMoveForward(w: World, events: seq<Event>, id: ProposalId)
    requires Inv(w) && id < |w.council.proposals|
    ensures id < |Run(w, events).council.proposals|
    ensures Later(PhaseAt(w.council, id, w.now), PhaseAt(Run(w, events).council, id, Run(w, events).now))
    decreases |events|
  {
    if events != [] {
      StepMovesForward(w, events[0], id);
      StepKeeps(w, events[0]);
      PhasesMoveForward(Step(w, events[0]), events[1..], id);
    }
  }

  /** Once voting has ended the tallies and the verdict are fixed for good. */
  lemma {:induction false} VerdictFrozen(w: World, events: seq<Event>, id: ProposalId)
    requires Inv(w) && id < |w.council.proposals| && w.now > VotingOf(w.council, id).end
    ensures var r := Run(w, events);
            && id < |r.council.proposals| && VotingOf(r.council, id) == VotingOf(w.council, id)
            && (Passed(CharterOf(r.council, id), VotingOf(r.council, id), r.now)
                <==> Passed(CharterOf(w.council, id), VotingOf(w.council, id), w.now))
    decreases |events|
  {
    if events != [] {
      StepEvolves(w, events[0], id);
      StepKeeps(w, events[0]);
      VerdictFrozen(Step(w, events[0]), events[1..], id);
    }
  }

  // ---------------------------------------------------------------- the counter of active proposals

  /** Over for good, but not by running its last transaction. */
  predicate Stuck(c: Council, id: ProposalId, now: nat)
    requires WellFormed(c) && id < |c.proposals|
  {
    var phase := PhaseAt(c, id, now);
    phase.Failed? || phase.Expired? || (phase.Executed? && c.proposals[id].txs == [])
  }

  function CountStuck(c: Council, now: nat, n: nat): nat
    requires WellFormed(c) && n <= |c.proposals|
  {
    if n == 0 then 0 else CountStuck(c, now, n - 1) + if Stuck(c, n - 1, now) then 1 else 0
  }

  /** Still being voted on, waiting or executable: what an active proposal should be. */
  predicate Live(c: Council, id: ProposalId, now: nat)
    requires WellFormed(c) && id < |c.proposals|
  {
    var phase := PhaseAt(c, id, now);
    phase.Active? || phase.Timelocked? || phase.Executable?
  }

  function CountLive(c: Council, now: nat, n: nat): nat
    requires WellFormed(c) && n <= |c.proposals|
  {
    if n == 0 then 0 else CountLive(c, now, n - 1) + if Live(c, n - 1, now) then 1 else 0
  }

  lemma CompleteIsExecuted(w: World, id: ProposalId)
    requires Inv(w) && id < |w.council.proposals|
    ensures Complete(w.council.proposals[id])
            <==> PhaseAt(w.council, id, w.now) == Executed && w.council.proposals[id].txs != []
  {
    if Complete(w.council.proposals[id]) {
      assert RanPrefix(w, id);
      if forall x :: x in w.executions ==> x.id != id { NothingRan(w.executions, id); }
      var x :| x in w.executions && x.id == id;
      assert InWindow(w.council, x);
    }
  }

  lemma {:induction false} UnfinishedSplits(w: World, n: nat)
    requires Inv(w) && n <= |w.council.proposals|
    ensures Unfinished(w.council.proposals, n) == CountLive(w.council, w.now, n) + CountStuck(w.council, w.now, n)
    ensures CountStuck(w.council, w.now, n) == 0 <==> forall id: nat :: id < n ==> !Stuck(w.council, id, w.now)
  {
    if n > 0 {
      UnfinishedSplits(w, n - 1);
      CompleteIsExecuted(w, n - 1);
    }
  }

  /**
   `activeProposalCount` is meant to count the proposals still under way. It does so exactly when none has
   failed, expired or passed with nothing to run; each of those keeps its slot.
   */
  lemma ActiveCountsLiveIffNoneStuck(w: World)
    requires Inv(w)
    ensures var n := |w.council.proposals|;
            w.council.active == CountLive(w.council, w.now, n)
            <==> forall id: nat :: id < n ==> !Stuck(w.council, id, w.now)
    ensures w.council.active == CountLive(w.council, w.now, |w.council.proposals|) + CountStuck(w.council, w.now, |w.council.proposals|)
  {
    UnfinishedSplits(w, |w.council.proposals|);
  }

  lemma {:induction false} StuckGrows(c: Council, now: nat, d: Council, later: nat, n: nat)
    requires WellFormed(c) && WellFormed(d) && n <= |c.proposals| && n <= |d.proposals|
    requires forall id: nat :: id < n && Stuck(c, id, now) ==> Stuck(d, id, later)
    ensures CountStuck(c, now, n) <= CountStuck(d, later, n)
  {
    if n > 0 { StuckGrows(c, now, d, later, n - 1); }
  }

  lemma {:induction false} CountStuckGrows(c: Council, now: nat, n: nat, m: nat)
    requires WellFormed(c) && n <= m <= |c.proposals|
    ensures CountStuck(c, now, n) <= CountStuck(c, now, m)
    decreases m
  {
    if n < m { CountStuckGrows(c, now, n, m - 1); }
  }

  /** A slot lost that way is never given back, so once they fill the limit nothing can be submitted until it is raised. */
  lemma {:induction false} SlotsAreNeverGivenBack(w: World, events: seq<Event>)
    requires Inv(w)
    ensures var r := Run(w, events);
            && |w.council.proposals| <= |r.council.proposals|
            && CountStuck(w.council, w.now, |w.council.proposals|) <= CountStuck(r.council, r.now, |r.council.proposals|) <= r.council.active
    decreases |events|
  {
    if events == [] {
      UnfinishedSplits(w, |w.council.proposals|);
    } else {
      var z := Step(w, events[0]);
      StepKeepsForm(w, events[0]);
      var c, d, n := w.council, z.council, |w.council.proposals|;
      assert n <= |d.proposals| by { if n > 0 { StepEvolves(w, events[0], n - 1); } }
      forall id: nat | id < n && Stuck(c, id, w.now) ensures Stuck(d, id, z.now) {
        StepMovesForward(w, events[0], id);
        StepEvolves(w, events[0], id);
      }
      StuckGrows(c, w.now, d, z.now, n);
      CountStuckGrows(d, z.now, n, |d.proposals|);
      StepKeeps(w, events[0]);
      SlotsAreNeverGivenBack(z, events[1..]);
    }
  }

  predicate RaisesLimit(e: Event) { e.Call? && e.op.Configure? && e.op.setting.MaxActive? }

  lemma {:induction false} LimitStays(w: World, events: seq<Event>)
    requires WellFormed(w.council) && forall e :: e in events ==> !RaisesLimit(e)
    ensures Run(w, events).council.maxActive == w.council.maxActive
    decreases |events|
  {
    if events != [] {
      StepKeepsForm(w, events[0]);
      assert !RaisesLimit(events[0]);
      LimitStays(Step(w, events[0]), events[1..]);
    }
  }

  /** When lost slots fill the limit, no run submits anything until the owner sets another limit. */
  lemma LostSlotsLock(w: World, events: seq<Event>, isProposer: bool, txs: seq<Tx>, now: nat)
    requires Inv(w) && CountStuck(w.council, w.now, |w.council.proposals|) >= w.council.maxActive
    requires forall e :: e in events ==> !RaisesLimit(e)
    ensures Submitted(Run(w, events).council, isProposer, txs, now) == None
  {
    SlotsAreNeverGivenBack(w, events);
    LimitStays(w, events);
  }

  // ---------------------------------------------------------------- one council that loses its slot

  const OWNER: Address := 1
  const SEAT: Address := 7
  const NO_VOTES := Charter(100, 1, 500_000, [3], map[], {}, {})
  const NEW_COUNCIL := World(Council(OWNER, map[SEAT := NO_VOTES], SEAT, 10, 10, [], 0, 100), 0, [], [])

  /** One slot, one proposal, and nobody votes on it. */
  const IGNORED := [Call(Configure(OWNER, MaxActive(1))), Call(Submit(true, [5])), Tick(200)]

  /** From deployment: a proposal nobody votes on fails and takes the only slot with it, for every continuation. */
  lemma IgnoredProposalLocks(events: seq<Event>, isProposer: bool, txs: seq<Tx>, now: nat)
    requires forall e :: e in events ==> !RaisesLimit(e)
    ensures Inv(NEW_COUNCIL)
    ensures var w := Run(NEW_COUNCIL, IGNORED);
            && |w.council.proposals| == 1 && PhaseAt(w.council, 0, w.now) == Failed && w.council.active == 1 && CountLive(w.council, w.now, 1) == 0
            && Submitted(Run(w, events).council, isProposer, txs, now) == None
  {
    DeployedInv(NEW_COUNCIL.council, 0);
    var w := IgnoredRun();
    RunKeeps(NEW_COUNCIL, IGNORED);
    assert CountStuck(w.council, w.now, 0) == 0 && CountLive(w.council, w.now, 0) == 0;
    LostSlotsLock(w, events, isProposer, txs, now);
  }

  lemma IgnoredRun() returns (w: World)
    ensures w == Run(NEW_COUNCIL, IGNORED)
    ensures w.council.maxActive == 1 && w.council.active == 1 && |w.council.proposals| == 1 && w.now == 200 && WellFormed(w.council)
    ensures PhaseAt(w.council, 0, w.now) == Failed
  {
    var w1, w2 := Step(NEW_COUNCIL, IGNORED[0]), Step(Step(NEW_COUNCIL, IGNORED[0]), IGNORED[1]);
    w := Step(w2, IGNORED[2]);
    assert Known(w2.council, 0);
    assert IGNORED[1..] == [IGNORED[1], IGNORED[2]] && IGNORED[1..][1..] == [IGNORED[2]] && IGNORED[1..][1..][1..] == [];
    assert Run(w, []) == w;
    assert Run(w2, IGNORED[1..][1..]) == w;
    assert Run(w1, IGNORED[1..]) == w;
  }
}

/** The council object. The charters it calls are values here. */
module CouncilContract {
  import opened Options
  import opened CharterModel
  import opened CouncilModel

  const DEFAULT_MAX_ACTIVE_PROPOSALS := 100

  class CouncilProgram {
    var owner: Address
    var charters: map<Address, Charter>
    var charter: Address
    var timelockPeriod: nat
    var executionPeriod: nat
    var proposals: seq<Proposal>
    var activeProposalCount: nat
    var maxActiveProposals: nat

    function State(): Council
      reads this
    {
      Council(owner, charters, charter, timelockPeriod, executionPeriod, proposals, activeProposalCount, maxActiveProposals)
    }

    constructor (owner: Address, charters: map<Address, Charter>, charter: Address, timelock: nat, execution: nat)
      requires charter != 0 && forall a :: a in charters ==> charters[a].votings == map[]
      ensures State() == Council(owner, charters, charter, timelock, execution, [], 0, DEFAULT_MAX_ACTIVE_PROPOSALS)
      ensures forall now :: Inv(World(State(), now, [], []))
    {
      this.owner, this.charters, this.charter := owner, charters, charter;
      timelockPeriod, executionPeriod, proposals, activeProposalCount := timelock, execution, [], 0;
      maxActiveProposals := DEFAULT_MAX_ACTIVE_PROPOSALS;
      new;
      forall now: nat ensures Inv(World(State(), now, [], [])) { DeployedInv(State(), now); }
    }

    method SubmitProposal(isProposer: bool, transactions: seq<Tx>, now: nat) returns (ok: bool)
      modifies this
      ensures ok == Submitted(old(State()), isProposer, transactions, now).Some?
      ensures State() == if ok then Submitted(old(State()), isProposer, transactions, now).value else old(State())
    {
      ok := false;
      if activeProposalCount >= maxActiveProposals || charter !in charters || !isProposer { return; }
      var hashes: seq<Tx> := [];
      for i := 0 to |transactions|
        invariant hashes == transactions[..i]
      {
        hashes := hashes + [transactions[i]];
      }
      assert hashes == transactions;
      var id := |proposals|;
      proposals := proposals + [Proposal(charter, hashes, timelockPeriod, executionPeriod, 0)];
      charters := charters[charter := Initialize(charters[charter], id, now)];
      activeProposalCount := activeProposalCount + 1;
      ok := true;
    }

    function ProposalState(id: ProposalId, now: nat): Option<Phase>
      requires WellFormed(State())
      reads this
    {
      if id >= |proposals| then None else Some(PhaseAt(State(), id, now))
    }

    method ExecuteProposal(id: ProposalId, attempts: seq<Attempt>, now: nat) returns (ok: bool)
      requires WellFormed(State())
      modifies this
      ensures ok == ExecutedBy(old(State()), id, attempts, now).Some?
      ensures State() == if ok then ExecutedBy(old(State()), id, attempts, now).value else old(State())
    {
      ok := false;
      if |attempts| == 0 || id >= |proposals| { return; }
      if proposals[id].counter + |attempts| > |proposals[id].txs| { return; }
      var willComplete := proposals[id].counter + |attempts| == |proposals[id].txs|;
      ghost var ch, v := CharterOf(State(), id), VotingOf(State(), id);
      var before := proposals;
      for i := 0 to |attempts|
        invariant |proposals| == |before| && proposals == before[id := proposals[id]]
        invariant proposals[id] == before[id].(counter := proposals[id].counter)
        invariant unchanged(`owner, `charters, `charter, `timelockPeriod, `executionPeriod, `activeProposalCount, `maxActiveProposals)
        invariant WellFormed(State()) && CharterOf(State(), id) == ch && VotingOf(State(), id) == v
        invariant ExecuteFrom(before[id], ch, v, attempts, now, 0) == ExecuteFrom(proposals[id], ch, v, attempts, now, i)
      {
        var p := proposals[id];
        if ProposalState(id, now) != Some(Executable) || p.counter >= |p.txs| || p.txs[p.counter] != attempts[i].tx {
          proposals := before;
          return;
        }
        proposals := proposals[id := p.(counter := p.counter + 1)];
        assert forall k: nat :: k < |proposals| && Known(old(State()), k) ==> Known(State(), k);
        if !attempts[i].succeeds {
          proposals := before;
          return;
        }
      }
      if willComplete && activeProposalCount > 0 { activeProposalCount := activeProposalCount - 1; }
      ok := true;
    }

    method Configure(caller: Address, setting: Setting) returns (ok: bool)
      modifies this
      ensures ok == Configured(old(State()), caller, setting).Some?
      ensures State() == if ok then Configured(old(State()), caller, setting).value else old(State())
      ensures WellFormed(old(State())) ==> WellFormed(State()) && SamePhases(old(State()), State())
    {
      if WellFormed(State()) && Configured(State(), caller, setting).Some? { SettingsKeepPhases(State(), caller, setting); }
      if caller != owner { return false; }
      match setting {
        case TimelockPeriod(n) => timelockPeriod := n;
        case ExecutionPeriod(n) => executionPeriod := n;
        case CurrentCharter(a) =>
          if a == 0 { return false; }
          charter := a;
        case MaxActive(n) => maxActiveProposals := n;
      }
      ok := true;
    }
  }
}
