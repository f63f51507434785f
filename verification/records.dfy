/** The team record the scorer reads, and the three player samples it
    averages. Only the fields the scorer consults are modelled. */
module Records {

  type NonNegReal = r: real | 0.0 <= r

  /** One player's statistics. A zero average or strike rate is a sentinel
      meaning "no data", not a genuine zero. */
  datatype PlayerRecord = PlayerRecord(
    battingAverage: NonNegReal,
    bowlingAverage: NonNegReal,
    wicketsTaken: nat,
    strikeRate: NonNegReal)

  /** Match-outcome counts, aggregate runs, and the squad. */
  datatype TeamRecord = TeamRecord(
    wins: nat,
    losses: nat,
    draws: nat,
    noResults: nat,
    runsScored: nat,
    runsConceded: nat,
    players: seq<PlayerRecord>)

  /** The three player statistics the scorer averages. */
  datatype Stat = Batting | Bowling | StrikeRate

  /** The field the scorer reads for `s`; never negative. */
  function Field(p: PlayerRecord, s: Stat): (v: real)
    ensures 0.0 <= v
  {
    match s
    case Batting => p.battingAverage
    case Bowling => p.bowlingAverage
    case StrikeRate => p.strikeRate
  }

  /** Whether a player's value for `s` carries data: the value is positive,
      and for bowling the player has also taken at least one wicket. */
  predicate Qualifies(p: PlayerRecord, s: Stat)
    ensures Qualifies(p, s) ==> Field(p, s) > 0.0
    ensures s == Bowling ==> (Qualifies(p, s) <==> p.bowlingAverage > 0.0 && p.wicketsTaken > 0)
    ensures s != Bowling ==> (Qualifies(p, s) <==> Field(p, s) > 0.0)
  {
    match s
    case Batting => p.battingAverage > 0.0
    case Bowling => p.bowlingAverage > 0.0 && p.wicketsTaken > 0
    case StrikeRate => p.strikeRate > 0.0
  }

  /** The values of `s` over the qualifying players, in squad order. */
  function Sample(ps: seq<PlayerRecord>, s: Stat): (r: seq<real>)
    ensures |r| <= |ps|
    ensures forall i :: 0 <= i < |r| ==> r[i] > 0.0
    ensures |r| == 0 <==> forall i :: 0 <= i < |ps| ==> !Qualifies(ps[i], s)
  {
    if |ps| == 0 then []
    else
      var rest := Sample(ps[1..], s);
      assert forall i :: 1 <= i < |ps| ==> ps[i] == ps[1..][i - 1];
      if Qualifies(ps[0], s) then [Field(ps[0], s)] + rest else rest
  }

  /** The sample holds exactly the values of the qualifying players. */
  lemma {:induction false} SampleMembers(ps: seq<PlayerRecord>, s: Stat)
    ensures forall x :: x in Sample(ps, s) <==> exists i :: 0 <= i < |ps| && Qualifies(ps[i], s) && Field(ps[i], s) == x
  {
    if |ps| > 0 {
      SampleMembers(ps[1..], s);
      assert forall i :: 1 <= i < |ps| ==> ps[i] == ps[1..][i - 1];
    }
  }

  lemma SampleSingleton(p: PlayerRecord, s: Stat)
    ensures Sample([p], s) == if Qualifies(p, s) then [Field(p, s)] else []
  {
    assert [p][1..] == [];
  }

  lemma {:induction false} SampleAppend(ps: seq<PlayerRecord>, qs: seq<PlayerRecord>, s: Stat)
    ensures Sample(ps + qs, s) == Sample(ps, s) + Sample(qs, s)
  {
    if |ps| == 0 {
      assert ps + qs == qs;
    } else {
      assert (ps + qs)[1..] == ps[1..] + qs;
      SampleAppend(ps[1..], qs, s);
    }
  }

  /** Extending a squad prefix by one player extends the sample by that
      player's value exactly when the player qualifies. */
  lemma SamplePrefixStep(ps: seq<PlayerRecord>, i: nat, s: Stat)
    requires i < |ps|
    ensures Sample(ps[..i + 1], s)
         == Sample(ps[..i], s) + (if Qualifies(ps[i], s) then [Field(ps[i], s)] else [])
  {
    assert ps[..i + 1] == ps[..i] + [ps[i]];
    SampleAppend(ps[..i], [ps[i]], s);
    SampleSingleton(ps[i], s);
  }

  /** A player without data for `s`, inserted anywhere in the squad, leaves
      the sample for `s` unchanged. */
  lemma SampleSkipsSentinel(ps: seq<PlayerRecord>, p: PlayerRecord, qs: seq<PlayerRecord>, s: Stat)
    requires !Qualifies(p, s)
    ensures Sample(ps + [p] + qs, s) == Sample(ps + qs, s)
  {
    SampleAppend(ps + [p], qs, s);
    SampleAppend(ps, [p], s);
    SampleAppend(ps, qs, s);
  }
}
