/**
 The sliding-window limiter of pairing claims. It forgets what is older than a minute and drops
 addresses it no longer needs; it is proved to decide like a limiter that remembers every claim.
 */
module Limiter {
  /** One minute, in seconds. */
  const WINDOW := 60
  const PER_ADDRESS := 5
  const GLOBAL := 30
  const MAP_TARGET := 256

  type Address = string
  datatype Claim = Claim(address: Address, at: int)

  // ---------------------------------------------------------------- the limiter that remembers everything

  function CountAfter(times: seq<int>, cutoff: int): nat {
    if times == [] then 0
    else CountAfter(times[..|times| - 1], cutoff) + if times[|times| - 1] > cutoff then 1 else 0
  }

  function Times(history: seq<Claim>): seq<int> {
    if history == [] then [] else Times(history[..|history| - 1]) + [history[|history| - 1].at]
  }

  function TimesOf(history: seq<Claim>, address: Address): seq<int> {
    if history == [] then []
    else
      var (earlier, last) := (TimesOf(history[..|history| - 1], address), history[|history| - 1]);
      if last.address == address then earlier + [last.at] else earlier
  }

  predicate Allows(history: seq<Claim>, address: Address, now: int) {
    && CountAfter(Times(history), now - WINDOW) < GLOBAL
    && CountAfter(TimesOf(history, address), now - WINDOW) < PER_ADDRESS
  }

  /** Every claim in the history was allowed when it was made. */
  ghost predicate Lawful(history: seq<Claim>) {
    forall i :: 0 <= i < |history| ==> LawfulAt(history, i)
  }

  predicate LawfulAt(history: seq<Claim>, i: nat)
    requires i < |history|
  {
    Allows(history[..i], history[i].address, history[i].at)
  }

  lemma CountAppend(times: seq<int>, time: int, cutoff: int)
    ensures CountAfter(times + [time], cutoff) == CountAfter(times, cutoff) + if time > cutoff then 1 else 0
  {
    var all := times + [time];
    assert all[..|all| - 1] == times;
  }

  lemma HistoryAppend(history: seq<Claim>, claim: Claim, address: Address)
    ensures Times(history + [claim]) == Times(history) + [claim.at]
    ensures TimesOf(history + [claim], address)
            == if claim.address == address then TimesOf(history, address) + [claim.at] else TimesOf(history, address)
  {
    var all := history + [claim];
    assert all[..|all| - 1] == history;
  }

  // ---------------------------------------------------------------- the same counts, as sets of claims

  /** The claims made after a time and no later than another, from every address or from one. */
  function Made(history: seq<Claim>, after: int, upTo: int): set<nat> {
    set i: nat | i < |history| && after < history[i].at <= upTo
  }

  function MadeFrom(history: seq<Claim>, address: Address, after: int, upTo: int): set<nat> {
    set i: nat | i < |history| && history[i].address == address && after < history[i].at <= upTo
  }

  lemma MadeAppend(history: seq<Claim>, claim: Claim, after: int, upTo: int)
    ensures |Made(history + [claim], after, upTo)| == |Made(history, after, upTo)| + if after < claim.at <= upTo then 1 else 0
  {
    if after < claim.at <= upTo {
      assert Made(history + [claim], after, upTo) == Made(history, after, upTo) + {|history|};
    } else {
      assert Made(history + [claim], after, upTo) == Made(history, after, upTo);
    }
  }

  lemma MadeFromAppend(history: seq<Claim>, claim: Claim, address: Address, after: int, upTo: int)
    ensures |MadeFrom(history + [claim], address, after, upTo)|
            == |MadeFrom(history, address, after, upTo)| + if after < claim.at <= upTo && claim.address == address then 1 else 0
  {
    if after < claim.at <= upTo && claim.address == address {
      assert MadeFrom(history + [claim], address, after, upTo) == MadeFrom(history, address, after, upTo) + {|history|};
    } else {
      assert MadeFrom(history + [claim], address, after, upTo) == MadeFrom(history, address, after, upTo);
    }
  }

  ghost predicate NoneAfter(history: seq<Claim>, now: int) {
    forall i :: 0 <= i < |history| ==> history[i].at <= now
  }

  /** When no claim is later than now, the recent claims are those made after the cutoff. */
  lemma {:induction false} RecentCounted(history: seq<Claim>, address: Address, cutoff: int, now: int)
    requires NoneAfter(history, now)
    ensures CountAfter(Times(history), cutoff) == |Made(history, cutoff, now)|
    ensures CountAfter(TimesOf(history, address), cutoff) == |MadeFrom(history, address, cutoff, now)|
    decreases |history|
  {
    if history != [] {
      var n := |history| - 1;
      RecentCounted(history[..n], address, cutoff, now);
      assert history == history[..n] + [history[n]];
      MadeAppend(history[..n], history[n], cutoff, now);
      MadeFromAppend(history[..n], history[n], address, cutoff, now);
      HistoryAppend(history[..n], history[n], address);
      CountAppend(Times(history[..n]), history[n].at, cutoff);
      CountAppend(TimesOf(history[..n], address), history[n].at, cutoff);
    }
  }

  /** Fewer than 30 claims in the last minute, and fewer than 5 of them from this address. */
  predicate Permits(history: seq<Claim>, address: Address, now: int) {
    |Made(history, now - 60, now)| < 30 && |MadeFrom(history, address, now - 60, now)| < 5
  }

  lemma DecisionCounted(history: seq<Claim>, address: Address, now: int)
    requires NoneAfter(history, now)
    ensures Allows(history, address, now) <==> Permits(history, address, now)
  {
    RecentCounted(history, address, now - 60, now);
  }

  lemma {:induction false} WindowCounted(history: seq<Claim>, address: Address, from: int)
    ensures CountIn(Times(history), from) == |Made(history, from, from + 60)|
    ensures CountIn(TimesOf(history, address), from) == |MadeFrom(history, address, from, from + 60)|
    decreases |history|
  {
    if history != [] {
      var n := |history| - 1;
      WindowCounted(history[..n], address, from);
      assert history == history[..n] + [history[n]];
      MadeAppend(history[..n], history[n], from, from + 60);
      MadeFromAppend(history[..n], history[n], address, from, from + 60);
      HistoryAppend(history[..n], history[n], address);
      CountInAppend(Times(history[..n]), history[n].at, from);
      CountInAppend(TimesOf(history[..n], address), history[n].at, from);
    }
  }

  // ---------------------------------------------------------------- any window of one minute

  /** The claims made after `from` and no later than a window after it. */
  function CountIn(times: seq<int>, from: int): nat {
    if times == [] then 0
    else
      CountIn(times[..|times| - 1], from)
        + if from < times[|times| - 1] <= from + WINDOW then 1 else 0
  }

  lemma CountInAppend(times: seq<int>, time: int, from: int)
    ensures CountIn(times + [time], from) == CountIn(times, from) + if from < time <= from + WINDOW then 1 else 0
  {
    var all := times + [time];
    assert all[..|all| - 1] == times;
  }

  lemma {:induction false} WindowWithin(times: seq<int>, from: int, cutoff: int)
    requires cutoff <= from
    ensures CountIn(times, from) <= CountAfter(times, cutoff)
    decreases |times|
  {
    if times != [] {
      WindowWithin(times[..|times| - 1], from, cutoff);
    }
  }

  lemma LawfulPrefix(history: seq<Claim>, n: nat)
    requires Lawful(history) && n <= |history|
    ensures Lawful(history[..n])
  {
    forall i | 0 <= i < n ensures LawfulAt(history[..n], i) {
      assert LawfulAt(history, i);
      assert history[..n][..i] == history[..i];
    }
  }

  lemma WindowGrows(earlier: seq<Claim>, last: Claim, from: int, address: Address)
    requires Allows(earlier, last.address, last.at)
    requires CountIn(Times(earlier), from) <= GLOBAL && CountIn(TimesOf(earlier, address), from) <= PER_ADDRESS
    ensures CountIn(Times(earlier + [last]), from) <= GLOBAL
    ensures CountIn(TimesOf(earlier + [last], address), from) <= PER_ADDRESS
  {
    HistoryAppend(earlier, last, address);
    CountInAppend(Times(earlier), last.at, from);
    CountInAppend(TimesOf(earlier, address), last.at, from);
    if from < last.at <= from + WINDOW {
      WindowWithin(Times(earlier), from, last.at - WINDOW);
      WindowWithin(TimesOf(earlier, address), from, last.at - WINDOW);
    }
  }

  /** Any window of one minute holds at most 30 accepted claims, and at most 5 from one address. */
  lemma WindowsAreBounded(history: seq<Claim>, from: int, address: Address)
    requires Lawful(history)
    ensures |Made(history, from, from + 60)| <= 30
    ensures |MadeFrom(history, address, from, from + 60)| <= 5
  {
    WindowCounts(history, from, address);
    WindowCounted(history, address, from);
  }

  lemma {:induction false} WindowCounts(history: seq<Claim>, from: int, address: Address)
    requires Lawful(history)
    ensures CountIn(Times(history), from) <= GLOBAL
    ensures CountIn(TimesOf(history, address), from) <= PER_ADDRESS
    decreases |history|
  {
    if history != [] {
      var n := |history| - 1;
      var earlier, last := history[..n], history[n];
      LawfulPrefix(history, n);
      WindowCounts(earlier, from, address);
      assert LawfulAt(history, n);
      assert history == earlier + [last];
      WindowGrows(earlier, last, from, address);
    }
  }

  // ---------------------------------------------------------------- forgetting

  ghost predicate Sorted(times: seq<int>) {
    forall i, j :: 0 <= i < j < |times| ==> times[i] <= times[j]
  }

  lemma {:induction false} CountOfAll(times: seq<int>, cutoff: int)
    requires forall i :: 0 <= i < |times| ==> times[i] > cutoff
    ensures CountAfter(times, cutoff) == |times|
    decreases |times|
  {
    if times != [] {
      CountOfAll(times[..|times| - 1], cutoff);
    }
  }

  lemma {:induction false} CountOfNone(times: seq<int>, cutoff: int)
    requires forall i :: 0 <= i < |times| ==> times[i] <= cutoff
    ensures CountAfter(times, cutoff) == 0
    decreases |times|
  {
    if times != [] {
      CountOfNone(times[..|times| - 1], cutoff);
    }
  }

  lemma {:induction false} CountSplits(times: seq<int>, k: nat, cutoff: int)
    requires k <= |times|
    ensures CountAfter(times, cutoff) == CountAfter(times[..k], cutoff) + CountAfter(times[k..], cutoff)
    decreases |times| - k
  {
    if k == |times| {
      assert times[..k] == times;
    } else {
      var n := |times| - 1;
      CountSplits(times[..n], k, cutoff);
      assert times[..n][..k] == times[..k] && times[..n][k..] == times[k..n];
      assert times[k..] == times[k..n] + [times[n]];
      CountAppend(times[k..n], times[n], cutoff);
    }
  }

  /** Drops the old head of a sorted list; what is left is exactly what is recent. */
  method RecentAttempts(attempts: seq<int>, cutoff: int) returns (recent: seq<int>)
    requires Sorted(attempts)
    ensures Sorted(recent) && forall i :: 0 <= i < |recent| ==> recent[i] > cutoff
    ensures |recent| == CountAfter(attempts, cutoff)
    ensures forall c :: c >= cutoff ==> CountAfter(recent, c) == CountAfter(attempts, c)
    ensures forall time :: time in recent ==> time in attempts
  {
    var first := 0;
    while first < |attempts| && attempts[first] <= cutoff
      invariant first <= |attempts|
      invariant forall i :: 0 <= i < first ==> attempts[i] <= cutoff
    {
      first := first + 1;
    }
    recent := attempts[first..];
    forall c | c >= cutoff ensures CountAfter(recent, c) == CountAfter(attempts, c) {
      CountSplits(attempts, first, c);
      CountOfNone(attempts[..first], c);
    }
    CountOfAll(recent, cutoff);
  }

  // ---------------------------------------------------------------- what the map may forget

  ghost predicate AgreesAfter(kept: seq<int>, all: seq<int>, floor: int) {
    forall c :: c >= floor ==> CountAfter(kept, c) == CountAfter(all, c)
  }

  predicate UpTo(times: seq<int>, latest: int) {
    forall time :: time in times ==> time <= latest
  }

  function Kept(attempts: map<Address, seq<int>>, address: Address): seq<int> {
    if address in attempts then attempts[address] else []
  }

  /** The kept times are sorted, not in the future, and miss nothing after the floor. */
  ghost predicate Tracks(kept: seq<int>, all: seq<int>, floor: int, latest: int) {
    Sorted(kept) && UpTo(kept, latest) && AgreesAfter(kept, all, floor)
  }

  ghost predicate Faithful(attempts: map<Address, seq<int>>, history: seq<Claim>, floor: int, latest: int) {
    forall address :: Tracks(Kept(attempts, address), TimesOf(history, address), floor, latest)
  }

  lemma TracksAppend(kept: seq<int>, all: seq<int>, floor: int, now: int)
    requires Tracks(kept, all, floor, now)
    ensures Tracks(kept + [now], all + [now], floor, now)
  {
    forall c | c >= floor ensures CountAfter(kept + [now], c) == CountAfter(all + [now], c) {
      CountAppend(kept, now, c);
      CountAppend(all, now, c);
    }
    forall i | 0 <= i < |kept| ensures kept[i] <= now {
      assert kept[i] in kept;
    }
  }

  /** What is left of a tracked list: as many times as there are recent claims in the whole history. */
  method Prune(kept: seq<int>, cutoff: int, ghost all: seq<int>, ghost latest: int) returns (recent: seq<int>)
    requires Tracks(kept, all, cutoff, latest)
    ensures Tracks(recent, all, cutoff, latest)
    ensures |recent| == CountAfter(all, cutoff) == CountAfter(recent, cutoff)
  {
    recent := RecentAttempts(kept, cutoff);
  }

  /** There are no more recently active addresses than recent claims. */
  lemma {:induction false} ActiveAddresses(history: seq<Claim>, addresses: set<Address>, cutoff: int)
    requires forall address :: address in addresses ==> CountAfter(TimesOf(history, address), cutoff) > 0
    ensures |addresses| <= CountAfter(Times(history), cutoff)
    decreases |history|
  {
    if history == [] {
      assert forall address :: address !in addresses;
    } else {
      var n := |history| - 1;
      var earlier, last := history[..n], history[n];
      assert history == earlier + [last];
      var others := if last.at > cutoff then addresses - {last.address} else addresses;
      forall address | address in others ensures CountAfter(TimesOf(earlier, address), cutoff) > 0 {
        HistoryAppend(earlier, last, address);
        CountAppend(TimesOf(earlier, address), last.at, cutoff);
      }
      ActiveAddresses(earlier, others, cutoff);
      HistoryAppend(earlier, last, last.address);
      CountAppend(Times(earlier), last.at, cutoff);
      assert addresses <= others + {last.address} && (last.at <= cutoff ==> others == addresses);
    }
  }

  lemma FaithfulButOne(before: map<Address, seq<int>>, after: map<Address, seq<int>>, address: Address, recent: seq<int>,
                       history: seq<Claim>, floor: int, latest: int)
    requires Faithful(before, history, floor, latest) && Tracks(recent, TimesOf(history, address), floor, latest)
    requires forall other :: Kept(after, other) == if other == address then recent else Kept(before, other)
    ensures Faithful(after, history, floor, latest)
  {
    forall other ensures Tracks(Kept(after, other), TimesOf(history, other), floor, latest) {
      assert Tracks(Kept(before, other), TimesOf(history, other), floor, latest);
    }
  }

  /** The set holds every address with a recent claim. */
  ghost predicate Covers(active: set<Address>, history: seq<Claim>, cutoff: int) {
    forall address :: CountAfter(TimesOf(history, address), cutoff) > 0 ==> address in active
  }

  lemma ActiveSet(attempts: map<Address, seq<int>>, history: seq<Claim>, cutoff: int, latest: int) returns (active: set<Address>)
    requires Faithful(attempts, history, cutoff, latest)
    ensures Covers(active, history, cutoff) && |active| <= CountAfter(Times(history), cutoff)
  {
    active := set address | address in attempts.Keys && CountAfter(TimesOf(history, address), cutoff) > 0;
    forall address | CountAfter(TimesOf(history, address), cutoff) > 0 ensures address in active {
      assert Tracks(Kept(attempts, address), TimesOf(history, address), cutoff, latest);
    }
    ActiveAddresses(history, active, cutoff);
  }

  method PurgeOne(kept: map<Address, seq<int>>, address: Address, cutoff: int, ghost history: seq<Claim>, ghost latest: int,
                  ghost active: set<Address>)
    returns (next: map<Address, seq<int>>)
    requires Faithful(kept, history, cutoff, latest) && address in kept && Covers(active, history, cutoff)
    ensures Faithful(next, history, cutoff, latest)
    ensures next.Keys == if address in next then kept.Keys else kept.Keys - {address}
    ensures address in next ==> address in active
  {
    assert Tracks(Kept(kept, address), TimesOf(history, address), cutoff, latest);
    var recent := Prune(kept[address], cutoff, TimesOf(history, address), latest);
    if recent == [] {
      next := kept - {address};
    } else {
      next := kept[address := recent];
    }
    FaithfulButOne(kept, next, address, recent, history, cutoff, latest);
  }

  /** Drops the addresses without a recent claim; at most as many stay as there are recent claims. */
  method Purge(attempts: map<Address, seq<int>>, cutoff: int, ghost history: seq<Claim>, ghost latest: int)
    returns (kept: map<Address, seq<int>>)
    requires Faithful(attempts, history, cutoff, latest)
    ensures Faithful(kept, history, cutoff, latest)
    ensures |kept| <= CountAfter(Times(history), cutoff)
  {
    kept := attempts;
    ghost var active := ActiveSet(attempts, history, cutoff, latest);
    var candidates := attempts.Keys;
    while candidates != {}
      invariant Faithful(kept, history, cutoff, latest)
      invariant candidates <= kept.Keys && kept.Keys - candidates <= active
      decreases candidates
    {
      var candidate :| candidate in candidates;
      kept := PurgeOne(kept, candidate, cutoff, history, latest, active);
      candidates := candidates - {candidate};
    }
    assert kept.Keys - {} == kept.Keys;
    SubsetIsSmaller(kept.Keys, active);
    assert |kept.Keys| == |kept|;
  }

  lemma {:induction false} SubsetIsSmaller(a: set<Address>, b: set<Address>)
    requires a <= b
    ensures |a| <= |b|
    decreases |a|
  {
    if a != {} {
      var item :| item in a;
      SubsetIsSmaller(a - {item}, b - {item});
    }
  }

  lemma LawfulAppend(history: seq<Claim>, claim: Claim)
    requires Lawful(history) && Allows(history, claim.address, claim.at) && NoneAfter(history, claim.at)
    ensures Lawful(history + [claim]) && NoneAfter(history + [claim], claim.at)
  {
    var all := history + [claim];
    forall i | 0 <= i < |all| ensures LawfulAt(all, i) {
      if i < |history| {
        assert LawfulAt(history, i) && all[..i] == history[..i];
      } else {
        assert all[..i] == history;
      }
    }
  }

  lemma FaithfulAppend(before: map<Address, seq<int>>, after: map<Address, seq<int>>, history: seq<Claim>,
                       claim: Claim, recent: seq<int>, floor: int)
    requires Faithful(before, history, floor, claim.at)
    requires Tracks(recent, TimesOf(history, claim.address), floor, claim.at)
    requires after == before[claim.address := recent + [claim.at]]
    ensures Faithful(after, history + [claim], floor, claim.at)
  {
    forall address ensures Tracks(Kept(after, address), TimesOf(history + [claim], address), floor, claim.at) {
      HistoryAppend(history, claim, address);
      if address == claim.address {
        TracksAppend(recent, TimesOf(history, address), floor, claim.at);
      } else {
        assert Tracks(Kept(before, address), TimesOf(history, address), floor, claim.at);
      }
    }
  }

  lemma TracksLater(kept: seq<int>, all: seq<int>, floor: int, latest: int, floor': int, latest': int)
    requires Tracks(kept, all, floor, latest) && floor <= floor' && latest <= latest'
    ensures Tracks(kept, all, floor', latest')
  {}

  lemma FaithfulLater(attempts: map<Address, seq<int>>, history: seq<Claim>, floor: int, latest: int, floor': int, latest': int)
    requires Faithful(attempts, history, floor, latest) && floor <= floor' && latest <= latest'
    ensures Faithful(attempts, history, floor', latest')
  {
    forall address ensures Tracks(Kept(attempts, address), TimesOf(history, address), floor', latest') {
      assert Tracks(Kept(attempts, address), TimesOf(history, address), floor, latest);
    }
  }

  lemma GlobalAppend(global: seq<int>, history: seq<Claim>, claim: Claim, cutoff: int)
    requires Tracks(global, Times(history), cutoff, claim.at)
    ensures Tracks(global + [claim.at], Times(history + [claim]), cutoff, claim.at)
  {
    HistoryAppend(history, claim, claim.address);
    TracksAppend(global, Times(history), cutoff, claim.at);
  }

  /** Records an accepted claim, and purges the map when it has grown past its target. */
  method Admit(attempts: map<Address, seq<int>>, recent: seq<int>, address: Address, now: int, ghost history: seq<Claim>)
    returns (kept: map<Address, seq<int>>)
    requires Faithful(attempts, history, now - WINDOW, now)
    requires Tracks(recent, TimesOf(history, address), now - WINDOW, now)
    requires CountAfter(Times(history), now - WINDOW) < GLOBAL
    ensures Faithful(kept, history + [Claim(address, now)], now - WINDOW, now) && |kept| <= MAP_TARGET
  {
    ghost var longer := history + [Claim(address, now)];
    kept := attempts[address := recent + [now]];
    FaithfulAppend(attempts, kept, history, Claim(address, now), recent, now - WINDOW);
    HistoryAppend(history, Claim(address, now), address);
    CountAppend(Times(history), now, now - WINDOW);
    if |kept| > MAP_TARGET {
      kept := Purge(kept, now - WINDOW, longer, now);
    }
  }

  class PairingLimiter {
    var attempts: map<Address, seq<int>>
    var global: seq<int>
    ghost var history: seq<Claim>
    ghost var latest: int

    ghost predicate Valid() reads this {
      && Lawful(history)
      && Tracks(global, Times(history), latest - WINDOW, latest)
      && Faithful(attempts, history, latest - WINDOW, latest)
      && |attempts| <= MAP_TARGET
      && NoneAfter(history, latest)
    }

    constructor (now: int)
      ensures Valid() && history == [] && latest == now
    {
      attempts, global, history, latest := map[], [], [], now;
    }

    /** Under a clock that does not go back, the decision is that of the limiter that remembers every claim. */
    method AllowPairingClaim(address: Address, now: int) returns (allowed: bool)
      requires Valid() && now >= latest
      modifies this
      ensures Valid() && latest == now
      ensures allowed <==> Permits(old(history), address, now)
      ensures history == if allowed then old(history) + [Claim(address, now)] else old(history)
      ensures |attempts| <= 256
    {
      assert NoneAfter(history, now);
      DecisionCounted(history, address, now);
      var cutoff := now - WINDOW;
      FaithfulLater(attempts, history, latest - WINDOW, latest, cutoff, now);
      TracksLater(global, Times(history), latest - WINDOW, latest, cutoff, now);
      global := Prune(global, cutoff, Times(history), now);
      latest := now;
      if |global| >= GLOBAL {
        return false;
      }
      assert Tracks(Kept(attempts, address), TimesOf(history, address), cutoff, now);
      var recent := Prune(Kept(attempts, address), cutoff, TimesOf(history, address), now);
      if |recent| >= PER_ADDRESS {
        ReplaceKept(attempts, address, recent, history, cutoff, now);
        attempts := attempts[address := recent];
        return false;
      }
      ghost var claim := Claim(address, now);
      LawfulAppend(history, claim);
      GlobalAppend(global, history, claim, cutoff);
      attempts := Admit(attempts, recent, address, now, history);
      global := global + [now];
      history := history + [claim];
      allowed := true;
    }
  }

  lemma ReplaceKept(attempts: map<Address, seq<int>>, address: Address, recent: seq<int>, history: seq<Claim>,
                    floor: int, latest: int)
    requires Faithful(attempts, history, floor, latest) && address in attempts
    requires Tracks(recent, TimesOf(history, address), floor, latest)
    ensures Faithful(attempts[address := recent], history, floor, latest)
    ensures |attempts[address := recent]| == |attempts|
  {
    var after := attempts[address := recent];
    forall other ensures Tracks(Kept(after, other), TimesOf(history, other), floor, latest) {
      assert Tracks(Kept(attempts, other), TimesOf(history, other), floor, latest);
    }
    assert after.Keys == attempts.Keys;
    assert |after| == |after.Keys| && |attempts| == |attempts.Keys|;
  }
}
