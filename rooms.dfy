/**
 * Selection of the rooms to listen to from the live directory listing
 * (`updateAreaRoom` in bilive/listener.ts): the first three rooms of every
 * ranking module (type 9) that lists more than two rooms.
 */
module Rooms {
  import opened Wrappers

  /** The `module_info.type` of a live-ranking module. */
  const RankingModuleType: int := 9

  /** How many rooms are taken from the head of each ranking module. */
  const RoomsPerModule: nat := 3

  datatype RoomEntry = RoomEntry(roomid: int)

  /** One module of the listing: its type and its room list. */
  datatype AreaModule = AreaModule(moduleType: int, list: seq<RoomEntry>)

  /** The listing's reply: HTTP status, application code and `data.module_list`. */
  datatype AllListReply = AllListReply(statusCode: int, code: int, modules: seq<AreaModule>)

  /** The reply arrived, with status 200 and code 0. */
  predicate FetchSucceeded(reply: Option<AllListReply>)
  {
    reply.Some? && reply.value.statusCode == 200 && reply.value.code == 0
  }

  /** A module whose head rooms are selected. */
  predicate IsRanking(m: AreaModule)
  {
    m.moduleType == RankingModuleType && |m.list| > 2
  }

  /** The rooms one module contributes. */
  function ModuleRooms(m: AreaModule): set<int>
  {
    if IsRanking(m) then {m.list[0].roomid, m.list[1].roomid, m.list[2].roomid} else {}
  }

  /** The target set of a listing: the union of what every module contributes, at most three rooms per module. */
  function TargetRooms(ms: seq<AreaModule>): (t: set<int>)
    ensures |t| <= RoomsPerModule * |ms|
    decreases |ms|
  {
    if ms == [] then {}
    else
      var a, b := TargetRooms(ms[..|ms| - 1]), ModuleRooms(ms[|ms| - 1]);
      assert |a + b| <= |a| + |b| by {
        assert |a + b| + |a * b| == |a| + |b|;
      }
      a + b
  }

  /** Room `r` is among the first three rooms of some ranking module. */
  ghost predicate Selected(ms: seq<AreaModule>, r: int)
  {
    exists i, k :: 0 <= i < |ms| && 0 <= k < RoomsPerModule && IsRanking(ms[i]) && ms[i].list[k].roomid == r
  }

  /** The target set holds exactly the selected rooms. */
  lemma {:induction false} TargetRoomsSelects(ms: seq<AreaModule>)
    ensures forall r :: r in TargetRooms(ms) <==> Selected(ms, r)
    decreases |ms|
  {
    if ms != [] {
      var init, last := ms[..|ms| - 1], ms[|ms| - 1];
      TargetRoomsSelects(init);
      assert TargetRooms(ms) == TargetRooms(init) + ModuleRooms(last);
      forall r | r in TargetRooms(ms)
        ensures Selected(ms, r)
      {
        if r in TargetRooms(init) {
          assert Selected(init, r);
          var i, k :| 0 <= i < |init| && 0 <= k < RoomsPerModule && IsRanking(init[i]) && init[i].list[k].roomid == r;
          assert ms[i] == init[i];
        } else {
          var k := if last.list[0].roomid == r then 0 else if last.list[1].roomid == r then 1 else 2;
          assert ms[|ms| - 1].list[k].roomid == r;
        }
      }
      forall r | Selected(ms, r)
        ensures r in TargetRooms(ms)
      {
        var i, k :| 0 <= i < |ms| && 0 <= k < RoomsPerModule && IsRanking(ms[i]) && ms[i].list[k].roomid == r;
        if i < |init| {
          assert init[i] == ms[i];
          assert Selected(init, r);
        } else {
          assert r in ModuleRooms(last) by {
            assert k == 0 || k == 1 || k == 2;
          }
        }
      }
    }
  }

  /** Extending a prefix of the listing by one module adds that module's rooms. */
  lemma TargetRoomsSnoc(ms: seq<AreaModule>, n: nat)
    requires n < |ms|
    ensures TargetRooms(ms[..n + 1]) == TargetRooms(ms[..n]) + ModuleRooms(ms[n])
  {
    assert ms[..n + 1][..n] == ms[..n];
  }

  /** The inner loop of the source: adds the first three rooms of a ranking module. */
  method AddModuleRooms(roomIDs: set<int>, m: AreaModule) returns (r: set<int>)
    ensures r == roomIDs + ModuleRooms(m)
  {
    r := roomIDs;
    if m.moduleType == RankingModuleType && |m.list| > 2 {
      for i := 0 to RoomsPerModule
        invariant r == roomIDs + set k | 0 <= k < i :: m.list[k].roomid
      {
        r := r + {m.list[i].roomid};
      }
      assert (set k | 0 <= k < RoomsPerModule :: m.list[k].roomid) == ModuleRooms(m);
    }
  }

  /** Builds the target set the way the source does: a loop over modules, three rooms each. */
  method CollectRoomIDs(ms: seq<AreaModule>) returns (roomIDs: set<int>)
    ensures roomIDs == TargetRooms(ms)
  {
    roomIDs := {};
    for n := 0 to |ms|
      invariant roomIDs == TargetRooms(ms[..n])
    {
      roomIDs := AddModuleRooms(roomIDs, ms[n]);
      TargetRoomsSnoc(ms, n);
    }
    assert ms[..|ms|] == ms;
  }
}
