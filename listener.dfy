/**
 * The `Listener` class of bilive/listener.ts: the open room connections, the
 * four per-category id sets, the message-text cache and the time of the last
 * admission, with the methods that update them. The methods that admit
 * messages are proved against the pure window of module Dedup and the
 * mappings of module Messages, the lottery handler also against AnchorName,
 * and the room refresh against Rooms; the hint handlers, the cache timer and
 * the single-client steps state their effect on the fields directly.
 *
 * Abstractions: `Date.now()` is the parameter `now`; every network reply is an
 * `Option` parameter (None for `undefined`); `emit` appends to the ghost log
 * `emitted`; opening and closing a room client is insertion into and removal
 * from `dmClients`, recorded in the ghost sets `openedClients` and `closedClients`.
 */
module ListenerCore {
  import opened Wrappers
  import opened Messages
  import opened Dedup
  import opened Rooms
  import opened AnchorName

  /**
   * A handle on one room's client connection. `serial` stands for the
   * identity of the client object: two clients for the same room opened at
   * different times are different handles.
   */
  datatype DMClient = DMClient(roomID: int, userID: int, serial: nat)

  /** The two raffle-check endpoints a hint can be escalated to. */
  datatype CheckEndpoint = SmallTVPath | RafflePath

  /** A hint that passed its guards: check `roomID` at `endpoint` after `delayMs`. */
  datatype PendingHint = PendingHint(roomID: int, endpoint: CheckEndpoint, delayMs: nat)

  /** A `SYS_MSG` broadcast: its text and, when present, the real room id. */
  datatype SysMsg = SysMsg(msgText: string, realRoomID: Option<int>)

  /** A `SYS_GIFT` broadcast: its text and, when present, the real room id and gift id. */
  datatype SysGift = SysGift(msgText: string, realRoomID: Option<int>, giftID: Option<int>)

  /** The search endpoint's reply: the room ids of `data.result.live_user`. */
  datatype SearchReply = SearchReply(liveUserRooms: seq<int>)

  /** A `SYS_MSG` hint is checked 15 seconds after it arrives. */
  const SysMsgDelayMs: nat := 15 * 1000

  /** The room a lottery is looked up in: the first live user of a search reply. */
  function SearchedRoom(search: Option<SearchReply>): (r: Option<int>)
    ensures r.Some? <==> search.Some? && |search.value.liveUserRooms| > 0
    ensures r.Some? ==> r.value == search.value.liveUserRooms[0]
  {
    if search.None? || |search.value.liveUserRooms| == 0 then None else Some(search.value.liveUserRooms[0])
  }

  /** A non-empty set of rooms has a member (what lets the loops pick the next room). */
  lemma NonEmptyHasElement(s: set<int>)
    requires s != {}
    ensures exists x :: x in s
  {
    if forall x :: x !in s {
      assert false;
    }
  }

  class Listener {
    /** `_DMclient`: one client per room listened to. */
    var dmClients: map<int, DMClient>
    /** `_smallTVID`, `_raffleID`, `_lotteryID`, `_beatStormID`. */
    var smallTVIDs: set<int>
    var raffleIDs: set<int>
    var lotteryIDs: set<int>
    var beatStormIDs: set<int>
    /** `_MSGCache`: hint texts seen since the cache was last cleared. */
    var msgCache: set<string>
    /** `_lastUpdate`: the time of the last admission. */
    var lastUpdate: int
    /** The serial the next opened client gets. */
    var nextSerial: nat

    /** Every message emitted, in order. */
    ghost var emitted: seq<Message>
    /** Where in `emitted` the current id-set epoch began (the last clear). */
    ghost var epochStart: nat
    /** Every client ever opened, and every client ever closed. */
    ghost var openedClients: set<DMClient>
    ghost var closedClients: set<DMClient>

    /** The deduplication state as a value. */
    ghost function Window(): DedupWindow
      reads this
    {
      DedupWindow(IdSets(smallTVIDs, raffleIDs, lotteryIDs, beatStormIDs), lastUpdate, emitted)
    }

    /**
     * The object invariant: no event was emitted twice since the last clear,
     * and the map holds exactly the clients that are open, each under its room.
     */
    ghost predicate Valid()
      reads this
    {
      && Recorded(Window(), epochStart)
      && (forall r :: r in dmClients ==> dmClients[r].roomID == r && dmClients[r] in openedClients && dmClients[r] !in closedClients)
      && (forall h :: h in openedClients && h !in closedClients ==> h.roomID in dmClients && dmClients[h.roomID] == h)
      && (forall h :: h in openedClients ==> h.serial < nextSerial)
      && closedClients <= openedClients
    }

    constructor (now: int)
      ensures Valid()
      ensures Window() == DedupWindow(NoIds, now, [])
      ensures dmClients == map[] && msgCache == {}
      ensures openedClients == {} && closedClients == {}
    {
      dmClients := map[];
      smallTVIDs, raffleIDs, lotteryIDs, beatStormIDs := {}, {}, {}, {};
      msgCache := {};
      lastUpdate := now;
      nextSerial := 0;
      emitted, epochStart := [], 0;
      openedClients, closedClients := {}, {};
    }

    // -------------------------------------------------------------------
    // Deduplication and emission
    // -------------------------------------------------------------------

    /**
     * `_RaffleHandler`: emit `msg` if its id is new in its category, recording
     * the id and stamping `lastUpdate`; otherwise (a duplicate, or a `cmd`
     * that names no category) do nothing.
     */
    method RaffleHandler(msg: Message, now: int)
      requires Valid()
      modifies this`smallTVIDs, this`raffleIDs, this`lotteryIDs, this`beatStormIDs, this`lastUpdate, this`emitted
      ensures Valid()
      ensures Window() == Admit(old(Window()), msg, now)
    {
      AdmitKeepsRecorded(Window(), msg, now, epochStart);
      var cmd, id := msg.cmd, msg.id;
      if cmd == "smallTV" {
        if id in smallTVIDs { return; }
        smallTVIDs := smallTVIDs + {id};
      } else if cmd == "raffle" {
        if id in raffleIDs { return; }
        raffleIDs := raffleIDs + {id};
      } else if cmd == "lottery" {
        if id in lotteryIDs { return; }
        lotteryIDs := lotteryIDs + {id};
      } else if cmd == "beatStorm" {
        if id in beatStormIDs { return; }
        beatStormIDs := beatStormIDs + {id};
      } else {
        return;
      }
      lastUpdate := now;
      emitted := emitted + [msg];
    }

    /**
     * `clearAllID`: empty the four id sets, but only when at least three
     * minutes have passed since the last admission.
     */
    method ClearAllID(now: int)
      requires Valid()
      modifies this`smallTVIDs, this`raffleIDs, this`lotteryIDs, this`beatStormIDs, this`epochStart
      ensures Valid()
      ensures Window() == ClearIfQuiescent(old(Window()), now)
    {
      if now - lastUpdate < QuiescenceMs { return; }
      smallTVIDs, raffleIDs, lotteryIDs, beatStormIDs := {}, {}, {}, {};
      epochStart := |emitted|;
    }

    // -------------------------------------------------------------------
    // Hints and their confirmation
    // -------------------------------------------------------------------

    /** The timer body of `Start`: the text cache is emptied every three seconds. */
    method ClearMsgCache()
      modifies this`msgCache
      ensures msgCache == {}
    {
      msgCache := {};
    }

    /**
     * `_SYSMSGHandler`: a broadcast with a room id and an unseen text is
     * remembered and escalated to a small-TV check after 15 seconds.
     */
    method SysMsgHandler(msg: SysMsg) returns (hint: Option<PendingHint>)
      modifies this`msgCache
      ensures hint.Some? <==> msg.realRoomID.Some? && msg.msgText !in old(msgCache)
      ensures hint.Some? ==> hint.value == PendingHint(msg.realRoomID.value, SmallTVPath, SysMsgDelayMs)
      ensures msgCache == old(msgCache) + (if hint.Some? then {msg.msgText} else {})
      ensures msg.realRoomID.Some? ==> msg.msgText in msgCache
    {
      if msg.realRoomID.None? || msg.msgText in msgCache {
        return None;
      }
      msgCache := msgCache + {msg.msgText};
      hint := Some(PendingHint(msg.realRoomID.value, SmallTVPath, SysMsgDelayMs));
    }

    /**
     * `_SYSGiftHandler`: a gift broadcast with a room id, a gift id and an
     * unseen text is remembered and escalated to a raffle check at once.
     */
    method SysGiftHandler(msg: SysGift) returns (hint: Option<PendingHint>)
      modifies this`msgCache
      ensures hint.Some? <==> msg.realRoomID.Some? && msg.giftID.Some? && msg.msgText !in old(msgCache)
      ensures hint.Some? ==> hint.value == PendingHint(msg.realRoomID.value, RafflePath, 0)
      ensures msgCache == old(msgCache) + (if hint.Some? then {msg.msgText} else {})
      ensures msg.realRoomID.Some? && msg.giftID.Some? ==> msg.msgText in msgCache
    {
      if msg.realRoomID.None? || msg.giftID.None? || msg.msgText in msgCache {
        return None;
      }
      msgCache := msgCache + {msg.msgText};
      hint := Some(PendingHint(msg.realRoomID.value, RafflePath, 0));
    }

    /**
     * `_RaffleCheck`: on a successful reply, hand one message per list item,
     * in list order, to `RaffleHandler`; on any failure do nothing.
     */
    method RaffleCheck(roomID: int, reply: Option<RaffleCheckReply>, now: int)
      requires Valid()
      modifies this`smallTVIDs, this`raffleIDs, this`lotteryIDs, this`beatStormIDs, this`lastUpdate, this`emitted
      ensures Valid()
      ensures Window() == AdmitAll(old(Window()), ConfirmedRaffles(roomID, reply), now)
    {
      if reply.Some? && reply.value.statusCode == 200 && reply.value.code == 0 && |reply.value.list| > 0 {
        var list := reply.value.list;
        for i := 0 to |list|
          invariant Valid()
          invariant Window() == AdmitAll(old(Window()), RaffleMessages(roomID, list[..i]), now)
        {
          assert list[..i + 1][..i] == list[..i];
          RaffleHandler(RaffleMessage(roomID, list[i]), now);
        }
        assert list[..|list|] == list;
      }
    }

    /**
     * `_LotteryCheck`: on a successful reply, hand one lottery message per
     * guard item, in order, to `RaffleHandler`; on any failure do nothing.
     */
    method LotteryCheck(roomID: int, reply: Option<LotteryCheckReply>, now: int)
      requires Valid()
      modifies this`smallTVIDs, this`raffleIDs, this`lotteryIDs, this`beatStormIDs, this`lastUpdate, this`emitted
      ensures Valid()
      ensures Window() == AdmitAll(old(Window()), ConfirmedLotteries(roomID, reply), now)
    {
      if reply.Some? && reply.value.statusCode == 200 && reply.value.code == 0 && |reply.value.guard| > 0 {
        var guard := reply.value.guard;
        for i := 0 to |guard|
          invariant Valid()
          invariant Window() == AdmitAll(old(Window()), LotteryMessages(roomID, guard[..i]), now)
        {
          assert guard[..i + 1][..i] == guard[..i];
          RaffleHandler(LotteryMessage(roomID, guard[i]), now);
        }
        assert guard[..|guard|] == guard;
      }
    }

    /**
     * `_LotteryHandler`: extract the broadcaster's name from the announcement
     * (returned as `keyword`, the search term); when it matches and the search
     * finds a live room, run the lottery check of the first room found.
     */
    method LotteryHandler(msg: string, search: Option<SearchReply>, reply: Option<LotteryCheckReply>, now: int)
      returns (keyword: Option<string>)
      requires Valid()
      modifies this`smallTVIDs, this`raffleIDs, this`lotteryIDs, this`beatStormIDs, this`lastUpdate, this`emitted
      ensures Valid()
      ensures keyword == ExtractAnchorName(msg)
      ensures keyword.None? || SearchedRoom(search).None? ==> Window() == old(Window())
      ensures keyword.Some? && SearchedRoom(search).Some? ==>
        Window() == AdmitAll(old(Window()), ConfirmedLotteries(SearchedRoom(search).value, reply), now)
    {
      keyword := ExtractAnchorName(msg);
      if keyword.None? { return; }
      if search.None? || |search.value.liveUserRooms| == 0 { return; }
      var roomID := search.value.liveUserRooms[0];
      LotteryCheck(roomID, reply, now);
    }

    // -------------------------------------------------------------------
    // Connection-set reconciliation
    // -------------------------------------------------------------------

    /**
     * `updateAreaRoom`: on a successful listing, listen to exactly the
     * selected rooms, opening new clients as `userID` (the configured
     * `defaultUserID`, read at each call); on a failed fetch leave every
     * connection as it is.
     */
    method UpdateAreaRoom(reply: Option<AllListReply>, userID: int)
      requires Valid()
      modifies this`dmClients, this`nextSerial, this`openedClients, this`closedClients
      ensures Valid()
      ensures !FetchSucceeded(reply) ==>
        dmClients == old(dmClients) && openedClients == old(openedClients) && closedClients == old(closedClients)
      ensures old(openedClients) <= openedClients && old(closedClients) <= closedClients
      ensures forall r :: r in old(dmClients) && r in dmClients ==> dmClients[r] == old(dmClients)[r]
      ensures FetchSucceeded(reply) ==> var target := TargetRooms(reply.value.modules);
        && dmClients.Keys == target
        && (forall r :: r in target && r !in old(dmClients) ==>
              dmClients[r].userID == userID && dmClients[r] !in old(openedClients))
        && (forall h :: h in openedClients - old(openedClients) ==>
              h.roomID in target && h.roomID !in old(dmClients) && dmClients[h.roomID] == h)
        && (forall h :: h in closedClients - old(closedClients) ==>
              h.roomID in old(dmClients) && h.roomID !in target && old(dmClients)[h.roomID] == h)
        && (forall r :: r in old(dmClients) && r !in target ==> old(dmClients)[r] in closedClients)
        && (old(dmClients).Keys == target ==>
              dmClients == old(dmClients) && openedClients == old(openedClients) && closedClients == old(closedClients))
    {
      if reply.Some? && reply.value.statusCode == 200 && reply.value.code == 0 {
        var roomIDs := CollectRoomIDs(reply.value.modules);
        Reconcile(roomIDs, userID);
      }
    }

    /**
     * The two loops of `updateAreaRoom`: open a client for every target room
     * that has none, then close and remove every client whose room is not a
     * target. Rooms that stay keep their client; a repeated call with the
     * same target changes nothing.
     */
    method Reconcile(target: set<int>, userID: int)
      requires Valid()
      modifies this`dmClients, this`nextSerial, this`openedClients, this`closedClients
      ensures Valid()
      ensures dmClients.Keys == target
      ensures forall r :: r in target && r in old(dmClients) ==> dmClients[r] == old(dmClients)[r]
      ensures forall r :: r in target && r !in old(dmClients) ==>
        dmClients[r].userID == userID && dmClients[r] !in old(openedClients)
      ensures old(openedClients) <= openedClients && old(closedClients) <= closedClients
      ensures forall h :: h in openedClients - old(openedClients) ==>
        h.roomID in target && h.roomID !in old(dmClients) && dmClients[h.roomID] == h
      ensures forall h :: h in closedClients - old(closedClients) ==>
        h.roomID in old(dmClients) && h.roomID !in target && old(dmClients)[h.roomID] == h
      ensures forall r :: r in old(dmClients) && r !in target ==> old(dmClients)[r] in closedClients
      ensures old(dmClients).Keys == target ==>
        dmClients == old(dmClients) && openedClients == old(openedClients) && closedClients == old(closedClients)
    {
      OpenMissing(target, userID);
      CloseStale(target);
    }

    /** The first loop of `updateAreaRoom`: a client for every target room that has none. */
    method OpenMissing(target: set<int>, userID: int)
      requires Valid()
      modifies this`dmClients, this`nextSerial, this`openedClients
      ensures Valid()
      ensures dmClients.Keys == old(dmClients).Keys + target
      ensures forall r :: r in old(dmClients) ==> dmClients[r] == old(dmClients)[r]
      ensures forall r :: r in dmClients && r !in old(dmClients) ==>
        dmClients[r].userID == userID && dmClients[r] !in old(openedClients)
      ensures old(openedClients) <= openedClients && closedClients == old(closedClients)
      ensures forall h :: h in openedClients - old(openedClients) ==>
        h.roomID in dmClients && h.roomID !in old(dmClients) && dmClients[h.roomID] == h
      ensures target <= old(dmClients).Keys ==> dmClients == old(dmClients) && openedClients == old(openedClients)
    {
      var toAdd := target;
      while toAdd != {}
        invariant Valid()
        invariant dmClients.Keys == old(dmClients).Keys + (target - toAdd)
        invariant forall r :: r in old(dmClients) ==> dmClients[r] == old(dmClients)[r]
        invariant forall r :: r in dmClients && r !in old(dmClients) ==>
          dmClients[r].userID == userID && dmClients[r] !in old(openedClients)
        invariant old(openedClients) <= openedClients && closedClients == old(closedClients)
        invariant forall h :: h in openedClients - old(openedClients) ==>
          h.roomID in dmClients && h.roomID !in old(dmClients) && dmClients[h.roomID] == h
        invariant target <= old(dmClients).Keys ==> dmClients == old(dmClients) && openedClients == old(openedClients)
        decreases toAdd
      {
        NonEmptyHasElement(toAdd);
        var roomID :| roomID in toAdd;
        if roomID !in dmClients {
          OpenClient(roomID, userID);
        }
        toAdd := toAdd - {roomID};
      }
    }

    /** The second loop of `updateAreaRoom`: close and drop every client whose room is not a target. */
    method CloseStale(target: set<int>)
      requires Valid()
      requires target <= dmClients.Keys
      modifies this`dmClients, this`closedClients
      ensures Valid()
      ensures dmClients.Keys == target
      ensures forall r :: r in dmClients ==> dmClients[r] == old(dmClients)[r]
      ensures old(closedClients) <= closedClients
      ensures forall h :: h in closedClients - old(closedClients) ==>
        h.roomID in old(dmClients) && h.roomID !in target && old(dmClients)[h.roomID] == h
      ensures forall r :: r in old(dmClients) && r !in target ==> old(dmClients)[r] in closedClients
      ensures old(dmClients).Keys == target ==> dmClients == old(dmClients) && closedClients == old(closedClients)
    {
      var toCheck := dmClients.Keys;
      while toCheck != {}
        invariant Valid()
        invariant toCheck <= dmClients.Keys
        invariant dmClients.Keys == target + toCheck
        invariant forall r :: r in dmClients ==> dmClients[r] == old(dmClients)[r]
        invariant old(closedClients) <= closedClients
        invariant forall h :: h in closedClients - old(closedClients) ==>
          h.roomID in old(dmClients) && h.roomID !in target && old(dmClients)[h.roomID] == h
        invariant forall r :: r in old(dmClients) && r !in target ==> r in toCheck || old(dmClients)[r] in closedClients
        invariant old(dmClients).Keys == target ==> dmClients == old(dmClients) && closedClients == old(closedClients)
        decreases toCheck
      {
        NonEmptyHasElement(toCheck);
        var roomID :| roomID in toCheck;
        if roomID !in target {
          CloseClient(roomID);
        }
        toCheck := toCheck - {roomID};
      }
    }

    /** `new DMclient(...).Connect()` and `_DMclient.set`: a fresh client for `roomID`. */
    method OpenClient(roomID: int, userID: int)
      requires Valid() && roomID !in dmClients
      modifies this`dmClients, this`nextSerial, this`openedClients
      ensures Valid()
      ensures dmClients == old(dmClients)[roomID := DMClient(roomID, userID, old(nextSerial))]
      ensures DMClient(roomID, userID, old(nextSerial)) !in old(openedClients)
      ensures openedClients == old(openedClients) + {DMClient(roomID, userID, old(nextSerial))}
    {
      var client := DMClient(roomID, userID, nextSerial);
      nextSerial := nextSerial + 1;
      openedClients := openedClients + {client};
      dmClients := dmClients[roomID := client];
    }

    /** `removeAllListeners().Close()` and `_DMclient.delete`: the client of `roomID` is closed and dropped. */
    method CloseClient(roomID: int)
      requires Valid() && roomID in dmClients
      modifies this`dmClients, this`closedClients
      ensures Valid()
      ensures dmClients == old(dmClients) - {roomID}
      ensures closedClients == old(closedClients) + {old(dmClients)[roomID]}
    {
      closedClients := closedClients + {dmClients[roomID]};
      dmClients := dmClients - {roomID};
    }
  }
}
