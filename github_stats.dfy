/**
 * The GitHub statistics hook: zero statistics while loading, then the
 * counters of the fetched profile (or the old ones if the fetch failed),
 * and `loading` cleared whatever the outcome.
 */
module GithubStats {
  import opened Wrappers

  datatype Stats = Stats(repos: int, followers: int, contributions: int)

  const ZeroStats: Stats := Stats(0, 0, 0)

  /** The fixed amount added to the gist count to make the contributions figure. */
  const ContributionBonus: int := 124

  /**
   * How one profile request ended: a reply whose body holds the three
   * counters, or a thrown error (a network failure, or a body that is not JSON).
   */
  datatype FetchOutcome = Fetched(publicRepos: int, followers: int, publicGists: int) | Failed

  /** The statistics a successful response carries. */
  function StatsOf(repos: int, followers: int, gists: int): Stats {
    Stats(repos, followers, gists + ContributionBonus)
  }

  /** The statistics after one outcome arrives on top of `prior`. */
  function Settle(prior: Stats, outcome: FetchOutcome): Stats {
    match outcome
    case Fetched(r, f, g) => StatsOf(r, f, g)
    case Failed => prior
  }

  /** The statistics after the outcomes arrive in order, starting from zero. */
  function Replay(outcomes: seq<FetchOutcome>): Stats
    decreases |outcomes|
  {
    if outcomes == [] then ZeroStats
    else Settle(Replay(outcomes[..|outcomes| - 1]), outcomes[|outcomes| - 1])
  }

  /** The position of the last successful outcome, if there is one. */
  function LastFetched(outcomes: seq<FetchOutcome>): (k: Option<nat>)
    ensures k.Some? ==> k.value < |outcomes| && outcomes[k.value].Fetched?
    ensures k.Some? ==> forall j :: k.value < j < |outcomes| ==> outcomes[j].Failed?
    ensures k.None? ==> forall j :: 0 <= j < |outcomes| ==> outcomes[j].Failed?
    decreases |outcomes|
  {
    if outcomes == [] then None
    else if outcomes[|outcomes| - 1].Fetched? then Some(|outcomes| - 1)
    else LastFetched(outcomes[..|outcomes| - 1])
  }

  /**
   * The last response to arrive wins: the statistics are those of the last
   * successful outcome, or zero when every request failed; failures change nothing.
   */
  lemma {:induction false} ReplayIsLastFetched(outcomes: seq<FetchOutcome>)
    ensures var k := LastFetched(outcomes);
            Replay(outcomes) == if k.None? then ZeroStats
                                else StatsOf(outcomes[k.value].publicRepos,
                                             outcomes[k.value].followers,
                                             outcomes[k.value].publicGists)
    decreases |outcomes|
  {
    if outcomes != [] {
      ReplayIsLastFetched(outcomes[..|outcomes| - 1]);
      var k := LastFetched(outcomes[..|outcomes| - 1]);
      if k.Some? {
        assert outcomes[..|outcomes| - 1][k.value] == outcomes[k.value];
      }
    }
  }

  /**
   * A response with 42 repositories, 7 followers and 3 gists shows 42, 7 and
   * 127; a failed request leaves the zero statistics.
   */
  lemma ExampleOutcomes()
    ensures Replay([Fetched(42, 7, 3)]) == Stats(42, 7, 127)
    ensures Replay([Failed]) == ZeroStats
  {
    assert [Fetched(42, 7, 3)][..0] == [];
    assert [Failed][..0] == [];
  }

  /** The hook's state for one mounted view. */
  class GithubStatsHook {
    var stats: Stats
    var loading: bool
    /** The outcomes that have arrived so far, in arrival order. */
    ghost var arrived: seq<FetchOutcome>

    ghost predicate Valid()
      reads this
    {
      stats == Replay(arrived) && (loading <==> arrived == [])
    }

    /** The state on mount: zero statistics, loading. */
    constructor ()
      ensures Valid() && arrived == []
      ensures stats == ZeroStats && loading
    {
      stats := ZeroStats;
      loading := true;
      arrived := [];
    }

    /**
     * The end of one `fetchStats` run: a success overwrites the statistics,
     * a failure leaves them, and either way loading is over.
     */
    method FetchStats(outcome: FetchOutcome)
      requires Valid()
      modifies this
      ensures Valid() && arrived == old(arrived) + [outcome]
      ensures !loading
      ensures outcome.Fetched? ==> stats == Stats(outcome.publicRepos, outcome.followers,
                                                  outcome.publicGists + 124)
      ensures outcome.Failed? ==> stats == old(stats)
    {
      if outcome.Fetched? {
        stats := StatsOf(outcome.publicRepos, outcome.followers, outcome.publicGists);
      }
      loading := false;
      arrived := arrived + [outcome];
      assert arrived[..|arrived| - 1] == old(arrived);
    }

    /** The statistics section renders nothing while loading. */
    function Visible(): (shown: bool)
      reads this
      requires Valid()
      ensures shown <==> arrived != []
    {
      !loading
    }
  }
}
