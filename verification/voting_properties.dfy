/**
 * Properties of a run of votes handled one after another: the final tallies, the totals,
 * independence from arrival order, and the absence of any per-voter limit.
 */
module VotingProperties {
  import opened Results
  import opened Polls
  import opened Voting
  import opened ObjectIds

  /** Votes on one poll handled in arrival order; a vote that fails leaves the poll as it was. */
  function Replay(p: Poll, votes: seq<Option<string>>): Poll
    decreases |votes|
  {
    if |votes| == 0 then p
    else
      var next := match CountVote(p, votes[0]) case Ok(q) => q case Err(_) => p;
      Replay(next, votes[1..])
  }

  /** Vote messages carrying the id `id`, each handled by the message handler with a successful save. */
  function Serve(store: Store, id: string, votes: seq<Option<string>>): Store
    decreases |votes|
  {
    if |votes| == 0 then store
    else Serve(HandleMessage(store, ClientMessage("vote", Some(id), votes[0]), true).store, id, votes[1..])
  }

  /** How many of `votes` name the text `v`. */
  function Occurrences(votes: seq<Option<string>>, v: string): nat
  {
    if |votes| == 0 then 0 else (if votes[0] == Some(v) then 1 else 0) + Occurrences(votes[1..], v)
  }

  /** How many of `votes` name one of the texts in `values`. */
  function Accepted(votes: seq<Option<string>>, values: seq<string>): nat
  {
    if |votes| == 0 then 0
    else (if votes[0].Some? && votes[0].value in values then 1 else 0) + Accepted(votes[1..], values)
  }

  /** Whether a position is the first one carrying its text depends only on the texts. */
  lemma FirstMatchDependsOnValues(a: seq<PollOption>, b: seq<PollOption>, v: string, i: int)
    requires Values(a) == Values(b)
    ensures IsFirstMatch(a, v, i) <==> IsFirstMatch(b, v, i)
  {
  }

  /** A single handled vote keeps the poll's shape; on success exactly the first matching option gains one. */
  lemma OneVote(p: Poll, w: Option<string>, q: Poll)
    requires q == match CountVote(p, w) case Ok(r) => r case Err(_) => p
    ensures q == p.(options := q.options)
    ensures Values(q.options) == Values(p.options)
    ensures forall i :: 0 <= i < |p.options| ==>
              q.options[i].votes == p.options[i].votes
                + (if w == Some(p.options[i].value) && IsFirstMatch(p.options, p.options[i].value, i) then 1 else 0)
  {
  }

  /** Handling votes never changes the question, creator, timestamps, voter list, or option texts. */
  lemma {:induction false} ReplayKeepsShape(p: Poll, votes: seq<Option<string>>)
    ensures Replay(p, votes) == p.(options := Replay(p, votes).options)
    ensures Values(Replay(p, votes).options) == Values(p.options)
    decreases |votes|
  {
    if |votes| > 0 {
      var next := match CountVote(p, votes[0]) case Ok(q) => q case Err(_) => p;
      OneVote(p, votes[0], next);
      ReplayKeepsShape(next, votes[1..]);
    }
  }

  /** Every vote naming an existing option adds exactly one to the total; every other vote adds nothing. */
  lemma {:induction false} ReplayTotal(p: Poll, votes: seq<Option<string>>)
    ensures Total(Replay(p, votes).options) == Total(p.options) + Accepted(votes, Values(p.options))
    decreases |votes|
  {
    if |votes| > 0 {
      var next := match CountVote(p, votes[0]) case Ok(q) => q case Err(_) => p;
      OneVote(p, votes[0], next);
      if CountVote(p, votes[0]).Ok? {
        IncrementAddsOne(p.options, FindIndex(p.options, votes[0]));
      }
      ReplayTotal(next, votes[1..]);
    }
  }

  /**
   * The tally of each option after a run of votes: its first occurrence collects every vote naming
   * its text, and a later duplicate of an earlier text never gains a vote.
   */
  lemma {:induction false} ReplayTally(p: Poll, votes: seq<Option<string>>)
    ensures |Replay(p, votes).options| == |p.options|
    ensures forall i :: 0 <= i < |p.options| ==>
              Replay(p, votes).options[i].votes == p.options[i].votes
                + (if IsFirstMatch(p.options, p.options[i].value, i) then Occurrences(votes, p.options[i].value) else 0)
    decreases |votes|
  {
    ReplayKeepsShape(p, votes);
    if |votes| > 0 {
      var next := match CountVote(p, votes[0]) case Ok(q) => q case Err(_) => p;
      OneVote(p, votes[0], next);
      ReplayTally(next, votes[1..]);
      forall i | 0 <= i < |p.options|
        ensures Replay(p, votes).options[i].votes == p.options[i].votes
                + (if IsFirstMatch(p.options, p.options[i].value, i) then Occurrences(votes, p.options[i].value) else 0)
      {
        assert next.options[i].value == Values(next.options)[i] == Values(p.options)[i] == p.options[i].value;
        FirstMatchDependsOnValues(next.options, p.options, p.options[i].value, i);
      }
    }
  }

  /** The number of votes naming `v` is the multiplicity of `Some(v)` in the run. */
  lemma {:induction false} OccurrencesIsMultiplicity(votes: seq<Option<string>>, v: string)
    ensures Occurrences(votes, v) == multiset(votes)[Some(v)]
  {
    if |votes| > 0 {
      OccurrencesIsMultiplicity(votes[1..], v);
      assert votes == [votes[0]] + votes[1..];
    }
  }

  /**
   * The poll after a run of votes depends only on which votes arrived, not on their order:
   * no interleaving of the same votes can give a different tally.
   */
  lemma ArrivalOrderIrrelevant(p: Poll, votes: seq<Option<string>>, reordered: seq<Option<string>>)
    requires multiset(votes) == multiset(reordered)
    ensures Replay(p, votes) == Replay(p, reordered)
  {
    var x := Replay(p, votes);
    var y := Replay(p, reordered);
    ReplayKeepsShape(p, votes);
    ReplayKeepsShape(p, reordered);
    ReplayTally(p, votes);
    ReplayTally(p, reordered);
    forall i | 0 <= i < |p.options|
      ensures x.options[i] == y.options[i]
    {
      var v := p.options[i].value;
      OccurrencesIsMultiplicity(votes, v);
      OccurrencesIsMultiplicity(reordered, v);
      assert x.options[i].value == Values(x.options)[i] == Values(p.options)[i] == Values(y.options)[i] == y.options[i].value;
    }
    assert x.options == y.options;
  }

  /**
   * Nothing limits how often a vote is counted: a run in which every vote names the text of
   * option `i`, its first occurrence, adds one vote to that option per message.
   */
  lemma RepeatedVotesAllCount(p: Poll, i: nat, votes: seq<Option<string>>)
    requires i < |p.options|
    requires IsFirstMatch(p.options, p.options[i].value, i)
    requires multiset(votes)[Some(p.options[i].value)] == |votes|
    ensures |Replay(p, votes).options| == |p.options|
    ensures Replay(p, votes).options[i].votes == p.options[i].votes + |votes|
  {
    ReplayTally(p, votes);
    OccurrencesIsMultiplicity(votes, p.options[i].value);
  }

  /**
   * Serving a run of vote messages for one poll, with every save succeeding, leaves that poll
   * exactly as the tally reference predicts and leaves every other poll untouched.
   */
  lemma {:induction false} ServeMatchesReplay(store: Store, id: string, k: PollId, votes: seq<Option<string>>)
    requires k in store && IsObjectIdText(k) && SameObjectId(id, k)
    ensures Serve(store, id, votes).Keys == store.Keys
    ensures Serve(store, id, votes)[k] == Replay(store[k], votes)
    ensures forall other :: other in store && other != k ==> Serve(store, id, votes)[other] == store[other]
    decreases |votes|
  {
    CanonFindsEveryCasing(id, k);
    if |votes| > 0 {
      var s := HandleMessage(store, ClientMessage("vote", Some(id), votes[0]), true);
      var next := match CountVote(store[k], votes[0]) case Ok(q) => q case Err(_) => store[k];
      assert s.store[k] == next;
      ServeMatchesReplay(s.store, id, k, votes[1..]);
    }
  }

  /**
   * A poll created with options "A" and "B" that receives votes "A", "A", "B" ends with
   * two votes for "A" and one for "B".
   */
  lemma TwoOptionScenario(creator: UserId, now: Timestamp)
    ensures var p := Replay(CreatePoll("Q", ["A", "B"], creator, now), [Some("A"), Some("A"), Some("B")]);
            |p.options| == 2 && p.options[0] == PollOption("A", 2) && p.options[1] == PollOption("B", 1)
  {
  }
}
