/**
 * The canonical messages the listener emits, and the mapping from the
 * confirmation endpoints' replies to those messages (`_RaffleCheck` and
 * `_LotteryCheck` in bilive/listener.ts).
 */
module Messages {
  import opened Wrappers

  /** The four event categories; each has its own identifier space. */
  datatype Category = SmallTV | Raffle | Lottery | BeatStorm

  /** The `cmd` string under which a category is emitted. */
  function CmdName(c: Category): string
  {
    match c
    case SmallTV => "smallTV"
    case Raffle => "raffle"
    case Lottery => "lottery"
    case BeatStorm => "beatStorm"
  }

  /** The category a `cmd` string names, if it names one of the four. */
  function CategoryOf(cmd: string): (c: Option<Category>)
    ensures c.Some? ==> CmdName(c.value) == cmd
    ensures c.None? ==> forall d: Category :: CmdName(d) != cmd
  {
    if cmd == "smallTV" then Some(SmallTV)
    else if cmd == "raffle" then Some(Raffle)
    else if cmd == "lottery" then Some(Lottery)
    else if cmd == "beatStorm" then Some(BeatStorm)
    else None
  }

  lemma CategoryOfCmdName(c: Category)
    ensures CategoryOf(CmdName(c)) == Some(c)
  {
  }

  /**
   * A canonical event. `maxTime` and `timeWait` are present only on
   * messages built from a raffle check; lottery messages carry neither.
   */
  datatype Message = Message(
    cmd: string,
    roomID: int,
    id: int,
    typeTag: string,
    title: string,
    time: int,
    maxTime: Option<int>,
    timeWait: Option<int>)

  /** A message whose `cmd` names one of the four categories. */
  predicate IsKnown(m: Message)
  {
    CategoryOf(m.cmd).Some?
  }

  /** Two messages announce the same event: same category and same id. */
  predicate SameEvent(a: Message, b: Message)
  {
    a.cmd == b.cmd && a.id == b.id
  }

  // ---------------------------------------------------------------------
  // Raffle confirmation (`_RaffleCheck`)
  // ---------------------------------------------------------------------

  /** The type tag that makes a confirmed raffle a `smallTV` event. */
  const SmallTVType: string := "small_tv"

  /** One entry of the raffle check's `data.list`, ids and times already numeric. */
  datatype RaffleItem = RaffleItem(raffleId: int, typeTag: string, title: string, timeWait: int, maxTime: int)

  /** The raffle check's reply: HTTP status, application code and `data.list`. */
  datatype RaffleCheckReply = RaffleCheckReply(statusCode: int, code: int, list: seq<RaffleItem>)

  /** The reply arrived, with status 200, code 0 and a non-empty list. */
  predicate RaffleCheckSucceeded(reply: Option<RaffleCheckReply>)
  {
    reply.Some? && reply.value.statusCode == 200 && reply.value.code == 0 && |reply.value.list| > 0
  }

  /** The message built for one list item of a raffle check of `roomID`. */
  function RaffleMessage(roomID: int, item: RaffleItem): (m: Message)
    ensures CategoryOf(m.cmd) == Some(if item.typeTag == SmallTVType then SmallTV else Raffle)
    ensures m.roomID == roomID && m.id == item.raffleId && m.typeTag == item.typeTag && m.title == item.title
    ensures m.time == item.timeWait && m.timeWait == Some(item.timeWait) && m.maxTime == Some(item.maxTime)
  {
    Message(if item.typeTag == SmallTVType then "smallTV" else "raffle",
            roomID, item.raffleId, item.typeTag, item.title,
            item.timeWait, Some(item.maxTime), Some(item.timeWait))
  }

  /** The messages built for a list of raffle items, one per item, in list order. */
  function RaffleMessages(roomID: int, items: seq<RaffleItem>): (ms: seq<Message>)
    ensures |ms| == |items|
    ensures forall k :: 0 <= k < |items| ==>
      && (CategoryOf(ms[k].cmd) == Some(SmallTV) <==> items[k].typeTag == SmallTVType)
      && (CategoryOf(ms[k].cmd) == Some(Raffle) <==> items[k].typeTag != SmallTVType)
      && ms[k].roomID == roomID
      && ms[k].id == items[k].raffleId
      && ms[k].typeTag == items[k].typeTag
      && ms[k].title == items[k].title
      && ms[k].time == items[k].timeWait
      && ms[k].maxTime == Some(items[k].maxTime)
      && ms[k].timeWait == Some(items[k].timeWait)
    decreases |items|
  {
    if items == [] then []
    else RaffleMessages(roomID, items[..|items| - 1]) + [RaffleMessage(roomID, items[|items| - 1])]
  }

  /** What a raffle check of `roomID` passes on to the handler, in order. */
  function ConfirmedRaffles(roomID: int, reply: Option<RaffleCheckReply>): (ms: seq<Message>)
    ensures ms == [] <==> !RaffleCheckSucceeded(reply)
    ensures RaffleCheckSucceeded(reply) ==> |ms| == |reply.value.list|
    ensures forall k :: 0 <= k < |ms| ==> IsKnown(ms[k]) && ms[k].roomID == roomID
  {
    if RaffleCheckSucceeded(reply) then RaffleMessages(roomID, reply.value.list) else []
  }

  // ---------------------------------------------------------------------
  // Lottery confirmation (`_LotteryCheck`)
  // ---------------------------------------------------------------------

  /** The fixed title of every lottery message ("fleet lottery"). */
  const LotteryTitle: string := "舰队抽奖"

  /** One entry of the lottery check's `data.guard`, id already numeric. */
  datatype GuardItem = GuardItem(id: int, keyword: string)

  /** The lottery check's reply: HTTP status, application code and `data.guard`. */
  datatype LotteryCheckReply = LotteryCheckReply(statusCode: int, code: int, guard: seq<GuardItem>)

  /** The reply arrived, with status 200, code 0 and a non-empty guard list. */
  predicate LotteryCheckSucceeded(reply: Option<LotteryCheckReply>)
  {
    reply.Some? && reply.value.statusCode == 200 && reply.value.code == 0 && |reply.value.guard| > 0
  }

  /** The message built for one guard item of a lottery check of `roomID`. */
  function LotteryMessage(roomID: int, item: GuardItem): (m: Message)
    ensures CategoryOf(m.cmd) == Some(Lottery)
    ensures m.roomID == roomID && m.id == item.id && m.typeTag == item.keyword
    ensures m.title == LotteryTitle && m.time == 0 && m.maxTime.None? && m.timeWait.None?
  {
    Message("lottery", roomID, item.id, item.keyword, LotteryTitle, 0, None, None)
  }

  /** The messages built for a guard list, one per item, in list order. */
  function LotteryMessages(roomID: int, items: seq<GuardItem>): (ms: seq<Message>)
    ensures |ms| == |items|
    ensures forall k :: 0 <= k < |items| ==>
      && CategoryOf(ms[k].cmd) == Some(Lottery)
      && ms[k].roomID == roomID
      && ms[k].id == items[k].id
      && ms[k].typeTag == items[k].keyword
      && ms[k].title == LotteryTitle
      && ms[k].time == 0
      && ms[k].maxTime.None? && ms[k].timeWait.None?
    decreases |items|
  {
    if items == [] then []
    else LotteryMessages(roomID, items[..|items| - 1]) + [LotteryMessage(roomID, items[|items| - 1])]
  }

  /** What a lottery check of `roomID` passes on to the handler, in order. */
  function ConfirmedLotteries(roomID: int, reply: Option<LotteryCheckReply>): (ms: seq<Message>)
    ensures ms == [] <==> !LotteryCheckSucceeded(reply)
    ensures LotteryCheckSucceeded(reply) ==> |ms| == |reply.value.guard|
    ensures forall k :: 0 <= k < |ms| ==> CategoryOf(ms[k].cmd) == Some(Lottery) && ms[k].roomID == roomID
  {
    if LotteryCheckSucceeded(reply) then LotteryMessages(roomID, reply.value.guard) else []
  }
}
