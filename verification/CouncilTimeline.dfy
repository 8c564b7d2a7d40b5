/** The whole life of a proposal, from the call that makes it, in terms of time, ballots and executions. */
module CouncilTimeline {
  import opened Options
  import opened CharterModel
  import opened CouncilModel

  /** Steps leave a proposal's content, its voting window and the rules it is judged by as they are. */
  lemma {:induction false} TermsStay(w: World, events: seq<Event>, id: ProposalId)
    requires Inv(w) && id < |w.council.proposals|
    ensures var r := Run(w, events); Inv(r) && Evolves(w.council, r.council, id)
    decreases |events|
  {
    if events == [] {
      assert Known(w.council, id);
    } else {
      StepEvolves(w, events[0], id);
      StepKeeps(w, events[0]);
      TermsStay(Step(w, events[0]), events[1..], id);
    }
  }

  /** What a submission stores. */
  lemma SubmissionStores(w: World, isProposer: bool, txs: seq<Tx>)
    requires Inv(w) && Submitted(w.council, isProposer, txs, w.now).Some?
    ensures w.council.charter in w.council.charters && isProposer && w.council.active < w.council.maxActive
    ensures var z, n := Step(w, Call(Submit(isProposer, txs))), |w.council.proposals|;
            var ch := w.council.charters[w.council.charter];
            && Inv(z) && z.now == w.now && |z.council.proposals| == n + 1
            && z.council.proposals[n] == Proposal(w.council.charter, txs, w.council.timelock, w.council.execution, 0)
            && VotingOf(z.council, n).start == w.now + 12 && VotingOf(z.council, n).end == w.now + 12 + ch.votingPeriod
            && CharterOf(z.council, n).quorum == ch.quorum && CharterOf(z.council, n).basis == ch.basis
  {
    SubmitKeeps(w, isProposer, txs);
    assert Known(Step(w, Call(Submit(isProposer, txs))).council, |w.council.proposals|);
  }

  /** The verdict in numbers: enough votes for or abstaining, and enough of those cast either way for. */
  predicate Carried(yes: nat, no: nat, abstain: nat, quorum: nat, basis: nat) {
    yes + abstain >= quorum && yes * 1_000_000 > (yes + no) * basis
  }

  /**
   Whatever happens after a submission: the proposal is active until 12 seconds and the voting period have passed;
   then it has failed unless the ballots counted for it carry it; carried, it is executed once all of its
   transactions have run, and before that waits for the timelock of the council at its submission, can be executed
   for the execution period of that moment, and expires.
   */
  lemma ProposalTimeline(w: World, isProposer: bool, txs: seq<Tx>, events: seq<Event>)
    requires Inv(w) && Submitted(w.council, isProposer, txs, w.now).Some?
    ensures Inv(Step(w, Call(Submit(isProposer, txs)))) && w.council.charter in w.council.charters
    ensures var n, ch := |w.council.proposals|, w.council.charters[w.council.charter];
            var r := Run(Step(w, Call(Submit(isProposer, txs))), events);
            var end := w.now + 12 + ch.votingPeriod;
            && n < |r.council.proposals| && r.council.proposals[n].txs == txs
            && PhaseAt(r.council, n, r.now) ==
               if r.now <= end then Active
               else if !Carried(Weight(r.ballots, n, YES), Weight(r.ballots, n, NO), Weight(r.ballots, n, ABSTAIN), ch.quorum, ch.basis) then Failed
               else if Ran(r.executions, n) == txs then Executed
               else if r.now <= end + w.council.timelock then Timelocked
               else if r.now <= end + w.council.timelock + w.council.execution then Executable
               else Expired
  {
    var z, n := Step(w, Call(Submit(isProposer, txs))), |w.council.proposals|;
    SubmissionStores(w, isProposer, txs);
    TermsStay(z, events, n);
    TalliesAreBallots(z, events, n);
    ExecutionsInOrder(z, events, n);
    var r := Run(z, events);
    assert r.council.proposals[n].counter == |txs| ==> txs[..r.council.proposals[n].counter] == txs;
  }

  /** A late vote counts nothing: the first one on a proposal leaves a flag, and any other reverts. */
  lemma LateVoteOnlyFlags(c: Charter, id: ProposalId, voter: Voter, kind: nat, votes: seq<ConfigVote>, now: nat)
    requires id in c.votings && now > c.votings[id].end && c.votings[id].start <= c.votings[id].end
    ensures CastVote(c, id, voter, kind, votes, now).Some? <==> votes != [] && id !in c.late
    ensures CastVote(c, id, voter, kind, votes, now).Some? ==> CastVote(c, id, voter, kind, votes, now).value == c.(late := c.late + {id})
  {
  }

  /** Without calls of its owner a council keeps its periods, its limit and its charter. */
  lemma {:induction false} OnlyOwnerSets(w: World, events: seq<Event>)
    requires WellFormed(w.council)
    requires forall e :: e in events ==> !(e.Call? && e.op.Configure? && e.op.caller == w.council.owner)
    ensures var c, d := w.council, Run(w, events).council;
            d.owner == c.owner && d.charter == c.charter && d.timelock == c.timelock && d.execution == c.execution && d.maxActive == c.maxActive
    decreases |events|
  {
    if events != [] {
      assert events[0] in events;
      StepKeepsForm(w, events[0]);
      OnlyOwnerSets(Step(w, events[0]), events[1..]);
    }
  }

  /** What the owner sets is what the next submission stores, or is refused by. */
  lemma SettingsGovernNext(c: Council, n: nat, a: Address, txs: seq<Tx>, now: nat)
    ensures var r := Configured(c, c.owner, TimelockPeriod(n));
            r.Some? && var s := Submitted(r.value, true, txs, now); s.Some? ==> s.value.proposals[|c.proposals|].timelock == n
    ensures var r := Configured(c, c.owner, ExecutionPeriod(n));
            r.Some? && var s := Submitted(r.value, true, txs, now); s.Some? ==> s.value.proposals[|c.proposals|].execution == n
    ensures var r := Configured(c, c.owner, CurrentCharter(a));
            (r.Some? <==> a != 0) && (r.Some? ==> var s := Submitted(r.value, true, txs, now);
                                                  s.Some? ==> a in c.charters && s.value.proposals[|c.proposals|].charter == a)
    ensures var r := Configured(c, c.owner, MaxActive(n)); r.Some? && (c.active >= n ==> Submitted(r.value, true, txs, now) == None)
  {
  }
}
