/**
 * The deduplication window of the listener as a value: the four per-category
 * id sets of bilive/listener.ts (`_smallTVID`, `_raffleID`, `_lotteryID`,
 * `_beatStormID`), the `_lastUpdate` stamp and the log of emitted messages.
 * `Admit` is `_RaffleHandler`, `ClearIfQuiescent` is `clearAllID`.
 */
module Dedup {
  import opened Wrappers
  import opened Messages

  /** The id sets are kept until no event was admitted for this long (3 minutes). */
  const QuiescenceMs: int := 3 * 60 * 1000

  /** One id set per category. */
  datatype IdSets = IdSets(smallTV: set<int>, raffle: set<int>, lottery: set<int>, beatStorm: set<int>)
  {
    function Get(c: Category): set<int>
    {
      match c
      case SmallTV => smallTV
      case Raffle => raffle
      case Lottery => lottery
      case BeatStorm => beatStorm
    }

    /** Inserts `id` into the set of `c` and touches no other set. */
    function Add(c: Category, id: int): (r: IdSets)
      ensures r.Get(c) == Get(c) + {id}
      ensures forall d :: d != c ==> r.Get(d) == Get(d)
    {
      match c
      case SmallTV => this.(smallTV := smallTV + {id})
      case Raffle => this.(raffle := raffle + {id})
      case Lottery => this.(lottery := lottery + {id})
      case BeatStorm => this.(beatStorm := beatStorm + {id})
    }
  }

  const NoIds: IdSets := IdSets({}, {}, {}, {})

  /** The ids seen so far, the time of the last admission, and everything emitted. */
  datatype DedupWindow = DedupWindow(ids: IdSets, lastUpdate: int, emitted: seq<Message>)

  /** `msg` names a category and its id has not been seen in that category. */
  predicate IsNew(w: DedupWindow, msg: Message)
  {
    match CategoryOf(msg.cmd)
    case None => false
    case Some(c) => msg.id !in w.ids.Get(c)
  }

  /**
   * Test-and-insert: a message of a known category whose id is new in that
   * category is recorded, stamps the window with `now` and is emitted; any
   * other message changes nothing.
   */
  function Admit(w: DedupWindow, msg: Message, now: int): (r: DedupWindow)
    ensures !IsNew(w, msg) ==> r == w
    ensures IsNew(w, msg) ==>
      && r.ids.Get(CategoryOf(msg.cmd).value) == w.ids.Get(CategoryOf(msg.cmd).value) + {msg.id}
      && (forall d :: d != CategoryOf(msg.cmd).value ==> r.ids.Get(d) == w.ids.Get(d))
      && r.lastUpdate == now
      && r.emitted == w.emitted + [msg]
  {
    match CategoryOf(msg.cmd)
    case None => w
    case Some(c) =>
      if msg.id in w.ids.Get(c) then w
      else DedupWindow(w.ids.Add(c, msg.id), now, w.emitted + [msg])
  }

  /** Admits the messages one after another, in order, all at time `now`. */
  function AdmitAll(w: DedupWindow, ms: seq<Message>, now: int): (r: DedupWindow)
    ensures forall c :: w.ids.Get(c) <= r.ids.Get(c)
    ensures r.lastUpdate == w.lastUpdate || r.lastUpdate == now
    ensures w.emitted <= r.emitted
    ensures r.emitted == w.emitted ==> r == w
    decreases |ms|
  {
    if ms == [] then w else Admit(AdmitAll(w, ms[..|ms| - 1], now), ms[|ms| - 1], now)
  }

  /**
   * Empties the four id sets when at least `QuiescenceMs` have passed since the
   * last admission; otherwise nothing changes. The stamp and the log are kept.
   */
  function ClearIfQuiescent(w: DedupWindow, now: int): (r: DedupWindow)
    ensures r.lastUpdate == w.lastUpdate && r.emitted == w.emitted
    ensures now - w.lastUpdate < QuiescenceMs ==> r == w
    ensures now - w.lastUpdate >= QuiescenceMs ==> forall c :: r.ids.Get(c) == {}
  {
    if now - w.lastUpdate < QuiescenceMs then w else w.(ids := NoIds)
  }

  /**
   * Every message emitted since position `from` of the log is of a known
   * category, its id is recorded in that category's set, and no two of them
   * announce the same event.
   */
  ghost predicate Recorded(w: DedupWindow, from: nat)
  {
    && from <= |w.emitted|
    && (forall k :: from <= k < |w.emitted| ==>
          IsKnown(w.emitted[k]) && w.emitted[k].id in w.ids.Get(CategoryOf(w.emitted[k].cmd).value))
    && (forall k, l :: from <= k < l < |w.emitted| ==> !SameEvent(w.emitted[k], w.emitted[l]))
  }

  // ---------------------------------------------------------------------
  // Properties of one admission
  // ---------------------------------------------------------------------

  /** Admitting the same message twice emits it once and the second call changes nothing. */
  lemma AdmitTwiceEmitsOnce(w: DedupWindow, msg: Message, t1: int, t2: int)
    ensures Admit(Admit(w, msg, t1), msg, t2) == Admit(w, msg, t1)
    ensures |Admit(w, msg, t1).emitted| <= |w.emitted| + 1
  {
  }

  /** The same id in two different categories is admitted in both. */
  lemma CategoriesDoNotCollide(w: DedupWindow, a: Message, b: Message, t1: int, t2: int)
    requires IsNew(w, a) && IsNew(w, b) && a.id == b.id && a.cmd != b.cmd
    ensures IsNew(Admit(w, a, t1), b)
    ensures Admit(Admit(w, a, t1), b, t2).emitted == w.emitted + [a, b]
  {
  }

  /** A message of unknown category changes nothing. */
  lemma UnknownCategoryIgnored(w: DedupWindow, msg: Message, now: int)
    requires !IsKnown(msg)
    ensures Admit(w, msg, now) == w
  {
  }

  /** After a clear, an id that was admitted before is admitted again. */
  lemma ReadmittedAfterClear(w: DedupWindow, msg: Message, t0: int, t1: int, t2: int)
    requires IsKnown(msg)
    requires t1 - Admit(w, msg, t0).lastUpdate >= QuiescenceMs
    ensures IsNew(ClearIfQuiescent(Admit(w, msg, t0), t1), msg)
    ensures Admit(ClearIfQuiescent(Admit(w, msg, t0), t1), msg, t2).emitted == Admit(w, msg, t0).emitted + [msg]
  {
  }

  /** An admission at `now` keeps the sets from being cleared before `now + QuiescenceMs`. */
  lemma AdmissionPostponesClear(w: DedupWindow, msg: Message, now: int, later: int)
    requires IsNew(w, msg) && later < now + QuiescenceMs
    ensures ClearIfQuiescent(Admit(w, msg, now), later) == Admit(w, msg, now)
  {
  }

  /** Admission keeps the log of emissions since `from` recorded and free of duplicates. */
  lemma AdmitKeepsRecorded(w: DedupWindow, msg: Message, now: int, from: nat)
    requires Recorded(w, from)
    ensures Recorded(Admit(w, msg, now), from)
  {
  }

  /** Clearing starts a new epoch: the log from its current end on is trivially recorded. */
  lemma ClearStartsEpoch(w: DedupWindow, now: int)
    ensures Recorded(ClearIfQuiescent(w, now), |w.emitted|)
  {
  }

  /** A clear that does not fire keeps the log recorded. */
  lemma ClearKeepsRecorded(w: DedupWindow, now: int, from: nat)
    requires Recorded(w, from) && now - w.lastUpdate < QuiescenceMs
    ensures Recorded(ClearIfQuiescent(w, now), from)
  {
  }

  // ---------------------------------------------------------------------
  // Properties of a batch of admissions (one confirmation reply)
  // ---------------------------------------------------------------------

  /** A batch of admissions keeps the log recorded and free of duplicates. */
  lemma {:induction false} AdmitAllKeepsRecorded(w: DedupWindow, ms: seq<Message>, now: int, from: nat)
    requires Recorded(w, from)
    ensures Recorded(AdmitAll(w, ms, now), from)
    decreases |ms|
  {
    if ms != [] {
      AdmitAllKeepsRecorded(w, ms[..|ms| - 1], now, from);
      AdmitKeepsRecorded(AdmitAll(w, ms[..|ms| - 1], now), ms[|ms| - 1], now, from);
    }
  }

  /**
   * A batch only appends to the log, at most one entry per input message, and
   * everything it appends is one of the inputs.
   */
  lemma {:induction false} AdmitAllAppendsInputs(w: DedupWindow, ms: seq<Message>, now: int)
    ensures w.emitted <= AdmitAll(w, ms, now).emitted
    ensures |AdmitAll(w, ms, now).emitted| <= |w.emitted| + |ms|
    ensures forall k :: |w.emitted| <= k < |AdmitAll(w, ms, now).emitted| ==> AdmitAll(w, ms, now).emitted[k] in ms
    decreases |ms|
  {
    if ms != [] {
      var init := ms[..|ms| - 1];
      AdmitAllAppendsInputs(w, init, now);
      var v := AdmitAll(w, init, now);
      forall k | |w.emitted| <= k < |AdmitAll(w, ms, now).emitted|
        ensures AdmitAll(w, ms, now).emitted[k] in ms
      {
        if k < |v.emitted| {
          assert v.emitted[k] in init;
        }
      }
    }
  }

  /** A batch with nothing new in it changes nothing: a repeated reply is a no-op. */
  lemma {:induction false} AdmitAllNothingNew(w: DedupWindow, ms: seq<Message>, now: int)
    requires forall k :: 0 <= k < |ms| ==> !IsNew(w, ms[k])
    ensures AdmitAll(w, ms, now) == w
    decreases |ms|
  {
    if ms != [] {
      AdmitAllNothingNew(w, ms[..|ms| - 1], now);
    }
  }

  /** A batch that has already been admitted is a no-op the second time. */
  lemma AdmitAllTwice(w: DedupWindow, ms: seq<Message>, t1: int, t2: int)
    ensures AdmitAll(AdmitAll(w, ms, t1), ms, t2) == AdmitAll(w, ms, t1)
  {
    AdmitAllSeen(w, ms, t1);
    AdmitAllNothingNew(AdmitAll(w, ms, t1), ms, t2);
  }

  /** After a batch, no message of the batch is new any more. */
  lemma {:induction false} AdmitAllSeen(w: DedupWindow, ms: seq<Message>, now: int)
    ensures forall k :: 0 <= k < |ms| ==> !IsNew(AdmitAll(w, ms, now), ms[k])
    decreases |ms|
  {
    if ms != [] {
      var init := ms[..|ms| - 1];
      AdmitAllSeen(w, init, now);
      var v := AdmitAll(w, init, now);
      forall k | 0 <= k < |ms|
        ensures !IsNew(AdmitAll(w, ms, now), ms[k])
      {
        if k < |init| {
          assert ms[k] == init[k];
          AdmitNeverForgets(v, ms[|ms| - 1], now, ms[k]);
        }
      }
    }
  }

  /** Admission only ever adds ids: what was not new stays not new. */
  lemma AdmitNeverForgets(w: DedupWindow, msg: Message, now: int, other: Message)
    requires !IsNew(w, other)
    ensures !IsNew(Admit(w, msg, now), other)
  {
  }

  /**
   * A batch of messages of known categories, all new and pairwise distinct
   * events, is emitted in full and in order.
   */
  lemma {:induction false} AdmitAllFreshEmitsAll(w: DedupWindow, ms: seq<Message>, now: int)
    requires forall k :: 0 <= k < |ms| ==> IsNew(w, ms[k])
    requires forall k, l :: 0 <= k < l < |ms| ==> !SameEvent(ms[k], ms[l])
    ensures AdmitAll(w, ms, now).emitted == w.emitted + ms
    decreases |ms|
  {
    if ms != [] {
      var init := ms[..|ms| - 1];
      var last := ms[|ms| - 1];
      AdmitAllFreshEmitsAll(w, init, now);
      AdmitAllKeepsNew(w, init, now, last);
      assert init + [last] == ms;
    }
  }

  /** A message that is new and differs from every event of a batch is still new after it. */
  lemma {:induction false} AdmitAllKeepsNew(w: DedupWindow, ms: seq<Message>, now: int, msg: Message)
    requires IsNew(w, msg)
    requires forall k :: 0 <= k < |ms| ==> !SameEvent(ms[k], msg)
    ensures IsNew(AdmitAll(w, ms, now), msg)
    decreases |ms|
  {
    if ms != [] {
      AdmitAllKeepsNew(w, ms[..|ms| - 1], now, msg);
      var last := ms[|ms| - 1];
      assert !SameEvent(last, msg);
    }
  }
}
