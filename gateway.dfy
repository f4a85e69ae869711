/**
 * The provider-selection and fallback policy shared by the plugin's AIManager
 * and the Telegram bot's AIManager. A provider is seen through its name, its
 * availability (it holds keys) and its capabilities; selection scans fixed
 * priority lists of names; a fallback run calls candidates in order until one
 * succeeds.
 */
module Gateway {
  import opened Wrappers
  import opened Text

  /** What the gateways know about a provider. */
  datatype ProviderInfo = ProviderInfo(name: string, available: bool, vision: bool, search: bool)

  /** What one selection scan looks for. */
  datatype Want = AnyAvailable | NamedAvailable(name: string) | GeminiFor(vision: bool, search: bool)

  predicate Wants(w: Want, p: ProviderInfo)
  {
    match w
    case AnyAvailable => p.available
    case NamedAvailable(name) => p.name == name && p.available
    case GeminiFor(vision, search) =>
      p.available && p.name == "Gemini" && (!vision || p.vision) && (!search || p.search)
  }

  /** The first provider at or after `start` that `w` accepts. */
  function FirstWhere(ps: seq<ProviderInfo>, w: Want, start: nat): (r: Option<nat>)
    ensures r.Some? ==> start <= r.value < |ps| && Wants(w, ps[r.value])
    ensures r.Some? ==> forall k | start <= k < r.value :: !Wants(w, ps[k])
    ensures r.None? ==> forall k | start <= k < |ps| :: !Wants(w, ps[k])
    decreases |ps| - start
  {
    if start >= |ps| then None
    else if Wants(w, ps[start]) then Some(start)
    else FirstWhere(ps, w, start + 1)
  }

  /**
   * Scan `order` name by name for an available provider of that name; when
   * none is found, take the first available provider of any name.
   */
  function SelectInOrder(ps: seq<ProviderInfo>, order: seq<string>): (r: Option<nat>)
    ensures r.Some? ==> r.value < |ps| && ps[r.value].available
    ensures r.None? <==> forall k | 0 <= k < |ps| :: !ps[k].available
    decreases |order|
  {
    if order == [] then FirstWhere(ps, AnyAvailable, 0)
    else match FirstWhere(ps, NamedAvailable(order[0]), 0)
      case Some(i) => Some(i)
      case None => SelectInOrder(ps, order[1..])
  }

  /**
   * `selectProvider(requiresVision, requiresSearch)`: a vision or search
   * request takes the first available Gemini having the needed capabilities;
   * otherwise, and when there is no such Gemini, the priority scan decides.
   */
  function SelectWith(ps: seq<ProviderInfo>, vision: bool, search: bool, order: seq<string>): (r: Option<nat>)
    ensures r.Some? ==> r.value < |ps| && ps[r.value].available
    ensures r.None? <==> forall k | 0 <= k < |ps| :: !ps[k].available
  {
    var gemini := if vision || search then FirstWhere(ps, GeminiFor(vision, search), 0) else None;
    if gemini.Some? then gemini else SelectInOrder(ps, order)
  }

  /**
   * The priority scan picks the first provider carrying the earliest name of
   * `order` that any available provider carries.
   */
  lemma {:induction false} SelectInOrderPriority(ps: seq<ProviderInfo>, order: seq<string>, j: nat, i: nat)
    requires j < |order| && i < |ps|
    requires ps[i].name == order[j] && ps[i].available
    requires forall x, k | 0 <= x < j && 0 <= k < |ps| :: !(ps[k].name == order[x] && ps[k].available)
    ensures var r := SelectInOrder(ps, order);
      r.Some? && r.value <= i && ps[r.value].name == order[j]
      && forall k | 0 <= k < r.value :: !(ps[k].name == order[j] && ps[k].available)
    decreases j
  {
    if j == 0 {
      assert Wants(NamedAvailable(order[0]), ps[i]);
    } else {
      assert forall k | 0 <= k < |ps| :: !Wants(NamedAvailable(order[0]), ps[k]);
      assert order[1..][j - 1] == order[j];
      SelectInOrderPriority(ps, order[1..], j - 1, i);
    }
  }

  /** A vision or search request goes to the first fitting Gemini whenever there is one. */
  lemma SelectWithPrefersGemini(ps: seq<ProviderInfo>, vision: bool, search: bool, order: seq<string>, i: nat)
    requires vision || search
    requires i < |ps| && Wants(GeminiFor(vision, search), ps[i])
    ensures var r := SelectWith(ps, vision, search, order);
      r.Some? && r.value <= i && ps[r.value].name == "Gemini"
      && (!vision || ps[r.value].vision) && (!search || ps[r.value].search)
  {
  }

  /** Which providers one fallback pass visits, besides availability and vision. */
  datatype Pass = Named(name: string) | LastResort | AnyName

  /**
   * A provider a fallback pass calls: not the preferred one, available,
   * vision-capable when vision is needed, and of the pass's name. Search
   * capability is not consulted.
   */
  predicate Eligible(ps: seq<ProviderInfo>, i: nat, pass: Pass, pref: nat, vision: bool)
    requires i < |ps|
  {
    i != pref && ps[i].available && (!vision || ps[i].vision)
    && match pass
       case Named(name) => ps[i].name == name
       case LastResort => Contains(ps[i].name, "Simple") || ps[i].name == "Gemma"
       case AnyName => true
  }

  /** The providers among the first `n` that `pass` calls, in list order. */
  function Matching(ps: seq<ProviderInfo>, pass: Pass, pref: nat, vision: bool, n: nat): seq<nat>
    requires n <= |ps|
  {
    if n == 0 then []
    else Matching(ps, pass, pref, vision, n - 1) + (if Eligible(ps, n - 1, pass, pref, vision) then [n - 1] else [])
  }

  /**
   * A pass calls exactly the eligible providers among the first `n`, each
   * once, in increasing list order.
   */
  lemma {:induction false} MatchingSpec(ps: seq<ProviderInfo>, pass: Pass, pref: nat, vision: bool, n: nat)
    requires n <= |ps|
    ensures forall k | 0 <= k < |Matching(ps, pass, pref, vision, n)| ::
      Matching(ps, pass, pref, vision, n)[k] < n && Eligible(ps, Matching(ps, pass, pref, vision, n)[k], pass, pref, vision)
    ensures forall x, y | 0 <= x < y < |Matching(ps, pass, pref, vision, n)| ::
      Matching(ps, pass, pref, vision, n)[x] < Matching(ps, pass, pref, vision, n)[y]
    ensures forall i | 0 <= i < n && Eligible(ps, i, pass, pref, vision) :: i in Matching(ps, pass, pref, vision, n)
    decreases n
  {
    if n > 0 {
      MatchingSpec(ps, pass, pref, vision, n - 1);
    }
  }

  ghost predicate IsPrefix<T>(a: seq<T>, b: seq<T>)
  {
    |a| <= |b| && b[..|a|] == a
  }

  ghost predicate NoDuplicates(s: seq<nat>)
  {
    forall x, y | 0 <= x < y < |s| :: s[x] != s[y]
  }

  lemma PrefixExtend<T>(p: seq<T>, a: seq<T>, b: seq<T>, q: seq<T>)
    requires IsPrefix(a, b)
    ensures IsPrefix(p + a, p + b + q)
  {
    assert (p + b + q)[..|p + a|] == p + a by {
      forall k | 0 <= k < |p + a|
        ensures (p + b + q)[k] == (p + a)[k]
      {
        if k >= |p| {
          assert b[k - |p|] == a[k - |p|];
        }
      }
    }
  }

  lemma PrefixPrepend<T>(p: seq<T>, a: seq<T>, b: seq<T>)
    requires IsPrefix(a, b)
    ensures IsPrefix(p + a, p + b)
  {
    PrefixExtend(p, a, b, []);
    assert p + b + [] == p + b;
  }

  lemma PrefixTrans<T>(a: seq<T>, b: seq<T>, c: seq<T>)
    requires IsPrefix(a, b) && IsPrefix(b, c)
    ensures IsPrefix(a, c)
  {
    assert c[..|a|] == c[..|b|][..|a|];
  }

  /** Scanning fewer providers yields a prefix of the longer scan. */
  lemma {:induction false} MatchingPrefix(ps: seq<ProviderInfo>, pass: Pass, pref: nat, vision: bool, n: nat, m: nat)
    requires n <= m <= |ps|
    ensures IsPrefix(Matching(ps, pass, pref, vision, n), Matching(ps, pass, pref, vision, m))
    decreases m
  {
    if n < m {
      MatchingPrefix(ps, pass, pref, vision, n, m - 1);
      var extra := if Eligible(ps, m - 1, pass, pref, vision) then [m - 1] else [];
      PrefixExtend([], Matching(ps, pass, pref, vision, n), Matching(ps, pass, pref, vision, m - 1), extra);
    }
  }

  /** What a fallback run did: its outcome and how many calls it made. */
  datatype Run<E> = Run(outcome: Result<string, E>, calls: nat)

  /**
   * Call `cands[k]`, `cands[k+1]`, ... until one succeeds; call number `j`
   * calls provider `cands[j]` and gives `task(cands[j], j)`. When every
   * candidate fails the run ends with `failed`.
   */
  function RunFrom<E>(cands: seq<nat>, task: (nat, nat) -> Result<string, E>, k: nat, failed: E): Run<E>
    requires k <= |cands|
    decreases |cands| - k
  {
    if k == |cands| then Run(Err(failed), k)
    else if task(cands[k], k).Ok? then Run(task(cands[k], k), k + 1)
    else RunFrom(cands, task, k + 1, failed)
  }

  /**
   * A run succeeds exactly when some candidate succeeds, with the first
   * success's result untouched, after failures only; otherwise every
   * candidate was called and failed.
   */
  lemma {:induction false} RunFromSpec<E>(cands: seq<nat>, task: (nat, nat) -> Result<string, E>, k: nat, failed: E)
    requires k <= |cands|
    ensures var r := RunFrom(cands, task, k, failed);
      && k <= r.calls <= |cands|
      && (r.outcome.Ok? <==> exists j | k <= j < |cands| :: task(cands[j], j).Ok?)
      && (r.outcome.Ok? ==> k < r.calls && r.outcome == task(cands[r.calls - 1], r.calls - 1))
      && (r.outcome.Ok? ==> forall j | k <= j < r.calls - 1 :: task(cands[j], j).Err?)
      && (r.outcome.Err? ==> r.outcome == Err(failed) && r.calls == |cands|)
      && (r.outcome.Err? ==> forall j | k <= j < |cands| :: task(cands[j], j).Err?)
    decreases |cands| - k
  {
    if k < |cands| && !task(cands[k], k).Ok? {
      RunFromSpec(cands, task, k + 1, failed);
    }
  }

  /** Failed calls at the front of the run do not change its result. */
  lemma {:induction false} RunAfterFailures<E>(cands: seq<nat>, task: (nat, nat) -> Result<string, E>, n: nat, failed: E)
    requires n <= |cands|
    requires forall j | 0 <= j < n :: task(cands[j], j).Err?
    ensures RunFrom(cands, task, 0, failed) == RunFrom(cands, task, n, failed)
    decreases n
  {
    if n > 0 {
      RunAfterFailures(cands, task, n - 1, failed);
    }
  }

  /** A prefix of the whole sequence. */
  lemma PrefixOfConcat<T>(a: seq<T>, b: seq<T>)
    ensures IsPrefix(a, a + b)
  {
    assert (a + b)[..|a|] == a;
  }

  /** The calls before a pass and part of the pass still start the candidates. */
  lemma PassPrefix(ps: seq<ProviderInfo>, pass: Pass, pref: nat, vision: bool, prior: seq<nat>, n: nat,
                   cands: seq<nat>)
    requires n <= |ps|
    requires IsPrefix(prior + Matching(ps, pass, pref, vision, |ps|), cands)
    ensures IsPrefix(prior + Matching(ps, pass, pref, vision, n), cands)
  {
    MatchingPrefix(ps, pass, pref, vision, n, |ps|);
    PrefixExtend(prior, Matching(ps, pass, pref, vision, n), Matching(ps, pass, pref, vision, |ps|), []);
    assert prior + Matching(ps, pass, pref, vision, |ps|) + [] == prior + Matching(ps, pass, pref, vision, |ps|);
    PrefixTrans(prior + Matching(ps, pass, pref, vision, n), prior + Matching(ps, pass, pref, vision, |ps|), cands);
  }

  /**
   * One fallback pass: call the providers `pass` accepts, in list order, and
   * stop at the first success. The calls are numbered on from the `prior`
   * calls made before the pass. Given a candidate list that the prior calls
   * and the whole pass start, and whose run the prior calls left open, the
   * pass either completes that run with its first success, or calls the
   * whole pass and leaves the run open.
   */
  method TryPass<E>(ps: seq<ProviderInfo>, task: (nat, nat) -> Result<string, E>, pref: nat, vision: bool,
                    pass: Pass, prior: seq<nat>, ghost cands: seq<nat>, ghost failed: E)
    returns (found: Option<string>, invoked: seq<nat>)
    requires IsPrefix(prior + Matching(ps, pass, pref, vision, |ps|), cands)
    requires RunFrom(cands, task, 0, failed) == RunFrom(cands, task, |prior|, failed)
    ensures IsPrefix(invoked, cands) && |prior| <= |invoked| && invoked[..|prior|] == prior
    ensures found.None? ==> invoked == prior + Matching(ps, pass, pref, vision, |ps|)
    ensures found.None? ==> RunFrom(cands, task, 0, failed) == RunFrom(cands, task, |invoked|, failed)
    ensures found.Some? ==> RunFrom(cands, task, 0, failed) == Run(Ok(found.value), |invoked|)
  {
    invoked := prior;
    var i := 0;
    while i < |ps|
      invariant 0 <= i <= |ps|
      invariant invoked == prior + Matching(ps, pass, pref, vision, i)
      invariant IsPrefix(invoked, cands)
      invariant RunFrom(cands, task, 0, failed) == RunFrom(cands, task, |invoked|, failed)
    {
      if Eligible(ps, i, pass, pref, vision) {
        PassPrefix(ps, pass, pref, vision, prior, i + 1, cands);
        assert prior + Matching(ps, pass, pref, vision, i + 1) == invoked + [i];
        assert cands[|invoked|] == i;
        var result := task(i, |invoked|);
        invoked := invoked + [i];
        if result.Ok? {
          return Some(result.value), invoked;
        }
      }
      i := i + 1;
    }
    found := None;
  }
}
