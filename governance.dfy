/**
 * Governance: positions with their current holders and, per position, an
 * election with a start time, the tally per candidate (in the order of each
 * candidate's first vote) and the candidate each voter chose. Names are
 * normalised by the caller.
 */
module Governance {
  import opened Wrappers
  import opened Tables

  /** ELECTION_PERIOD_SECONDS: one week. */
  const Period: int := 604800

  /** The only position votes are cast for. */
  const President: string := "president"

  datatype Election = Election(start: int, votes: Table, voters: map<string, string>)

  datatype Gov = Gov(holders: map<string, Option<string>>, elections: map<string, Election>)

  /** A new election started at `now`: no votes, no voters. */
  function Fresh(now: int): Election
  {
    Election(now, Empty, map[])
  }

  /** get_current_holder: None for an unknown position or one never filled. */
  function Holder(g: Gov, position: string): Option<string>
  {
    if position in g.holders then g.holders[position] else None
  }

  /** `votes.get(candidate, 0)`. */
  function Tally(votes: Table, c: string): int
  {
    if c in votes.vals then votes.vals[c] else 0
  }

  /** The voters whose recorded choice is `c`. */
  ghost function VotersFor(voters: map<string, string>, c: string): set<string>
  {
    set v | v in voters && voters[v] == c
  }

  /**
   * The election's bookkeeping is exact: every voter's candidate has a
   * tally, and every tally is the number of voters who chose that candidate.
   */
  ghost predicate Tallied(e: Election)
  {
    e.votes.Valid() &&
    (forall v :: v in e.voters ==> e.voters[v] in e.votes.vals) &&
    (forall c :: c in e.votes.vals ==> e.votes.vals[c] == |VotersFor(e.voters, c)|)
  }

  lemma FreshTallied(now: int)
    ensures Tallied(Fresh(now))
    ensures Fresh(now).votes.keys == []
  {
  }

  /** One recorded vote: the candidate's tally goes up by one and the voter's choice is stored. */
  function Cast(e: Election, candidate: string, voter: string): Election
  {
    e.(votes := Put(e.votes, candidate, Tally(e.votes, candidate) + 1), voters := e.voters[voter := candidate])
  }

  /**
   * vote_candidate: the presidential election is created at `now` if there
   * is none; a voter who already voted is refused and nothing is stored;
   * otherwise the vote is cast in the presidential election.
   */
  function Vote(g: Gov, candidate: string, voter: string, now: int): (Gov, bool)
  {
    var e := if President in g.elections then g.elections[President] else Fresh(now);
    if voter in e.voters then (g, false)
    else (g.(elections := g.elections[President := Cast(e, candidate, voter)]), true)
  }

  /** get_candidates: the candidates of the presidential election in the order of their first vote. */
  function Candidates(g: Gov): seq<string>
  {
    if President in g.elections then g.elections[President].votes.keys else []
  }

  /**
   * get_candidates after vote_candidate: a refused vote leaves the list as
   * it was; a counted vote lists a new candidate last and leaves the list
   * alone for one already voted for.
   */
  lemma CandidatesAfterVote(g: Gov, candidate: string, voter: string, now: int)
    ensures var (r, ok) := Vote(g, candidate, voter, now);
      var e := if President in g.elections then g.elections[President] else Fresh(now);
      && (ok ==> Candidates(r) == if candidate in e.votes.vals then e.votes.keys else e.votes.keys + [candidate])
      && (!ok ==> Candidates(r) == Candidates(g))
  {
    var e := if President in g.elections then g.elections[President] else Fresh(now);
    CastCounts(e, candidate, voter, candidate);
  }

  /** A vote for `c` by a new voter raises the count of voters for `c` by one and leaves the others. */
  lemma VotersForAdd(voters: map<string, string>, v: string, c: string, d: string)
    requires v !in voters
    ensures |VotersFor(voters[v := c], d)| == |VotersFor(voters, d)| + (if d == c then 1 else 0)
  {
    if d == c {
      assert VotersFor(voters[v := c], d) == VotersFor(voters, d) + {v};
    } else {
      assert VotersFor(voters[v := c], d) == VotersFor(voters, d);
    }
  }

  /**
   * Casting a vote adds one to the candidate's tally and nothing to any
   * other, records the voter's choice, lists a new candidate last and keeps
   * the start time.
   */
  lemma CastCounts(e: Election, candidate: string, voter: string, c: string)
    ensures Tally(Cast(e, candidate, voter).votes, c) == Tally(e.votes, c) + (if c == candidate then 1 else 0)
    ensures Cast(e, candidate, voter).voters == e.voters[voter := candidate]
    ensures Cast(e, candidate, voter).votes.keys == if candidate in e.votes.vals then e.votes.keys else e.votes.keys + [candidate]
    ensures Cast(e, candidate, voter).start == e.start
  {
  }

  /** A vote by someone who has not voted keeps the tally exact. */
  lemma CastTallied(e: Election, candidate: string, voter: string)
    requires Tallied(e) && voter !in e.voters
    ensures Tallied(Cast(e, candidate, voter))
  {
    var e' := Cast(e, candidate, voter);
    PutValid(e.votes, candidate, Tally(e.votes, candidate) + 1);
    forall c | c in e'.votes.vals ensures e'.votes.vals[c] == |VotersFor(e'.voters, c)| {
      VotersForAdd(e.voters, voter, candidate, c);
      if c == candidate && candidate !in e.votes.vals {
        assert VotersFor(e.voters, c) == {};
      }
    }
  }

  /**
   * What vote_candidate does: it succeeds exactly when the voter has not voted
   * in the presidential election; a refusal changes nothing; a success casts
   * the vote there, touches no other election and no holder, and keeps the
   * tally exact.
   */
  lemma VoteSpec(g: Gov, candidate: string, voter: string, now: int)
    requires President in g.elections ==> Tallied(g.elections[President])
    ensures var (r, ok) := Vote(g, candidate, voter, now);
      var e := if President in g.elections then g.elections[President] else Fresh(now);
      && (ok <==> voter !in e.voters)
      && (!ok ==> r == g)
      && (ok ==> r.holders == g.holders && r.elections == g.elections[President := Cast(e, candidate, voter)])
      && (ok ==> Tallied(r.elections[President]))
  {
    var e := if President in g.elections then g.elections[President] else Fresh(now);
    if voter !in e.voters {
      CastTallied(e, candidate, voter);
    }
  }

  /**
   * `max(votes.items(), key=count)[0]` over the keys in insertion order: the
   * running winner is replaced only by a strictly larger tally.
   */
  function FirstMax(ks: seq<string>, votes: Table): (w: string)
    requires ks != []
    ensures w in ks
    ensures forall k :: k in ks ==> Tally(votes, k) <= Tally(votes, w)
    decreases |ks|
  {
    if |ks| == 1 then ks[0]
    else
      var init := ks[..|ks| - 1];
      var last := ks[|ks| - 1];
      var w := FirstMax(init, votes);
      assert forall k :: k in ks ==> k in init || k == last;
      if Tally(votes, last) > Tally(votes, w) then last else w
  }

  /** The winner is the first candidate with the largest tally: it comes no later than any entry with a tally as large. */
  lemma {:induction false} FirstMaxIsFirst(ks: seq<string>, votes: Table)
    requires ks != []
    ensures forall j :: 0 <= j < |ks| && Tally(votes, ks[j]) >= Tally(votes, FirstMax(ks, votes)) ==> FirstMax(ks, votes) in ks[..j + 1]
  {
    if |ks| > 1 {
      var init := ks[..|ks| - 1];
      var last := ks[|ks| - 1];
      var w := FirstMax(init, votes);
      FirstMaxIsFirst(init, votes);
      forall j | 0 <= j < |ks| && Tally(votes, ks[j]) >= Tally(votes, FirstMax(ks, votes))
        ensures FirstMax(ks, votes) in ks[..j + 1]
      {
        if j < |ks| - 1 {
          assert ks[j] == init[j] && init[j] in init;
          assert init[..j + 1] == ks[..j + 1];
        } else {
          assert ks[..j + 1] == ks;
        }
      }
    }
  }

  /**
   * _finalize_election: a position with votes gets the first candidate with
   * the largest tally as holder; either way its election restarts at `now`.
   * A position without an election is left alone.
   */
  function Finalize(g: Gov, position: string, now: int): (r: Gov)
  {
    if position !in g.elections then g
    else
      var votes := g.elections[position].votes;
      var holders := if votes.keys != [] then g.holders[position := Some(FirstMax(votes.keys, votes))] else g.holders;
      Gov(holders, g.elections[position := Fresh(now)])
  }

  /**
   * Finalizing an election installs a candidate with the largest tally, the
   * first such in vote order, when there were votes, keeps the holder when
   * there were none, restarts the election, and leaves every other position
   * and election as it was.
   */
  lemma FinalizeSpec(g: Gov, position: string, now: int)
    requires position in g.elections
    ensures var r := Finalize(g, position, now);
      var votes := g.elections[position].votes;
      && r.elections == g.elections[position := Fresh(now)]
      && (votes.keys == [] ==> r.holders == g.holders)
      && (votes.keys != [] ==>
            exists w :: Holder(r, position) == Some(w) && w in votes.keys &&
              (forall c :: c in votes.keys ==> Tally(votes, c) <= Tally(votes, w)))
      && (forall p :: p != position ==> Holder(r, p) == Holder(g, p))
  {
    var votes := g.elections[position].votes;
    if votes.keys != [] {
      var w := FirstMax(votes.keys, votes);
      assert Holder(Finalize(g, position, now), position) == Some(w);
    }
  }

  /** Finalizing one position changes only that position's holder, which depends only on its election. */
  lemma FinalizeAt(r: Gov, g: Gov, p: string, now: int, q: string)
    requires p in r.elections && p in g.elections && r.elections[p] == g.elections[p] && Holder(r, p) == Holder(g, p)
    ensures Holder(Finalize(r, p, now), q) == if q == p then Holder(Finalize(g, p, now), p) else Holder(r, q)
  {
  }

  /** An election whose term has run out. */
  predicate Due(e: Election, now: int)
  {
    now - e.start >= Period
  }

  /** is_election_active: the position has an election still within its term. */
  predicate IsActive(g: Gov, position: string, now: int)
  {
    position in g.elections && now - g.elections[position].start < Period
  }

  /** The sweep so far: the elections outside `todo` have been restarted if due, the rest are untouched. */
  ghost predicate SweptElections(g: Gov, r: Gov, now: int, todo: set<string>)
  {
    && r.elections.Keys == g.elections.Keys
    && (forall p :: p in g.elections ==>
          r.elections[p] == if p !in todo && Due(g.elections[p], now) then Fresh(now) else g.elections[p])
  }

  /** The sweep so far: the holders outside `todo` are as finalizing would leave them, the rest are untouched. */
  ghost predicate SweptHolders(g: Gov, r: Gov, now: int, todo: set<string>)
  {
    forall p :: Holder(r, p) ==
      if p in g.elections && p !in todo && Due(g.elections[p], now) then Holder(Finalize(g, p, now), p) else Holder(g, p)
  }

  /** One iteration of the sweep handles the election of one more position. */
  lemma SweepElectionsStep(g: Gov, r: Gov, now: int, todo: set<string>, p: string)
    requires SweptElections(g, r, now, todo) && p in todo && todo <= g.elections.Keys
    ensures SweptElections(g, if Due(r.elections[p], now) then Finalize(r, p, now) else r, now, todo - {p})
  {
  }

  /** One iteration of the sweep handles the holder of one more position. */
  lemma SweepHoldersStep(g: Gov, r: Gov, now: int, todo: set<string>, p: string)
    requires SweptElections(g, r, now, todo) && SweptHolders(g, r, now, todo) && p in todo && todo <= g.elections.Keys
    ensures SweptHolders(g, if Due(r.elections[p], now) then Finalize(r, p, now) else r, now, todo - {p})
  {
    if Due(r.elections[p], now) {
      var r' := Finalize(r, p, now);
      forall q ensures Holder(r', q) == if q == p then Holder(Finalize(g, p, now), p) else Holder(r, q) {
        FinalizeAt(r, g, p, now, q);
      }
    }
  }

  /**
   * check_and_update_elections: exactly the elections whose term has run out
   * are finalized, each position ending as a single _finalize_election would
   * leave it; the others are left alone, and afterwards every election is
   * active.
   */
  method CheckElections(g: Gov, now: int) returns (r: Gov)
    ensures r.elections.Keys == g.elections.Keys
    ensures forall p :: p in g.elections ==>
              r.elections[p] == if Due(g.elections[p], now) then Fresh(now) else g.elections[p]
    ensures forall p :: Holder(r, p) ==
              if p in g.elections && Due(g.elections[p], now) then Holder(Finalize(g, p, now), p) else Holder(g, p)
    ensures forall p :: p in g.elections ==> IsActive(r, p, now)
  {
    r := g;
    var todo := g.elections.Keys;
    while todo != {}
      invariant todo <= g.elections.Keys
      invariant SweptElections(g, r, now, todo) && SweptHolders(g, r, now, todo)
      decreases |todo|
    {
      var p :| p in todo;
      SweepElectionsStep(g, r, now, todo, p);
      SweepHoldersStep(g, r, now, todo, p);
      if Due(r.elections[p], now) {
        r := Finalize(r, p, now);
      }
      todo := todo - {p};
    }
  }
}
