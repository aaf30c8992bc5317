/**
 * The command handlers of the lottery plugin, as transitions on the store.
 * Every handler loads the whole store, validates, changes its copy in memory and
 * writes the copy back; a rejection replies before the write, so the store after a
 * rejected command is the store before it.
 */
module LotteryPlugin {
  import opened Models
  import opened Seqs

  /**
   * What a handler knows about the message that triggered it. `member` is present in
   * a group and absent in a private chat; member ids are strings, like user ids.
   */
  datatype Session = Session(
    sceneId: SceneId,
    userId: UserId,
    member: Option<UserId>,
    selfId: string,
    adapter: string)

  /** A `--start` / `--end` argument: not given, given but not a valid time, or a time. */
  datatype TimeArg = Omitted | Malformed | At(t: int)

  /** The replies that end a command without writing the store. */
  datatype Rejection =
    | NotPermitted
    | NoKeyword
    | TimeFormatError
    | StartInPast
    | EndNotAfterStart
    | DuplicateKeyword
    | NoLotteryInScene
    | NoMatch
    | AlreadyJoined
    | NotAuthorized

  datatype Result<T> = Ok(value: T) | Err(error: Rejection)

  /** One line of the listing: keyword, start, end, participants so far and the cap. */
  datatype Line = Line(keyword: string, startTime: int, endTime: int, joined: nat, limit: int)

  /** How a command ends. `Crashed` is an uncaught AttributeError naming the attribute. */
  datatype Reply =
    | Created(lottery: Lottery)
    | Joined
    | Deleted
    | Listing(lines: seq<Line>)
    | Rejected(why: Rejection)
    | Crashed(attribute: string)

  /** The attribute the listing reads and the record model lacks. */
  const LimitAttribute := "participants_limits"

  // ---------------------------------------------------------------------------
  // The store invariant kept by every handler

  /**
   * In every scene: each drawing is tagged with that scene and carries its cap, and no
   * two drawings share a keyword.
   */
  predicate SceneValid(scene: SceneId, lotteries: seq<Lottery>) {
    && (forall k :: 0 <= k < |lotteries| ==>
          lotteries[k].scene == scene && lotteries[k].participantsLimit.Some?)
    && (forall i, j :: 0 <= i < j < |lotteries| ==> lotteries[i].keyword != lotteries[j].keyword)
  }

  predicate Valid(store: Store) {
    forall scene :: scene in store ==> SceneValid(scene, store[scene])
  }

  lemma EmptyStoreValid()
    ensures Valid(map[])
  {
  }

  /** Dropping drawings from a scene keeps it valid. */
  lemma {:induction false} FilterKeepsSceneValid(scene: SceneId, lotteries: seq<Lottery>, p: Lottery -> bool)
    requires SceneValid(scene, lotteries)
    ensures SceneValid(scene, Filter(lotteries, p))
  {
    if lotteries != [] {
      var rest := lotteries[1..];
      assert SceneValid(scene, rest) by {
        forall i, j | 0 <= i < j < |rest| ensures rest[i].keyword != rest[j].keyword {
          assert rest[i] == lotteries[i + 1] && rest[j] == lotteries[j + 1];
        }
      }
      FilterKeepsSceneValid(scene, rest, p);
      if p(lotteries[0]) {
        var r := Filter(lotteries, p);
        assert r == [lotteries[0]] + Filter(rest, p);
        forall j | 0 < j < |r| ensures r[0].keyword != r[j].keyword {
          assert r[j] in rest;
          var t :| 0 <= t < |rest| && rest[t] == r[j];
          assert lotteries[t + 1] == r[j];
        }
      }
    }
  }

  // ---------------------------------------------------------------------------
  // handle_new

  /**
   * The permission test. The handler refuses when a member is present, the member id
   * differs from the integer 1, and the user is no superuser. A member id is a string,
   * and a string never equals the integer 1, so the middle test always holds.
   */
  predicate MayCreate(session: Session, superusers: set<UserId>) {
    session.member.None? || session.userId in superusers
  }

  /** The time an argument denotes; `default` stands in for an omitted one. */
  function Resolve(arg: TimeArg, default: int): int
    requires arg != Malformed
  {
    if arg.At? then arg.t else default
  }

  /**
   * Parse both times, then check them: the start may not lie before `now`, and the end
   * must come after the start. Returns the accepted (start, end).
   */
  function TimeChecks(start: TimeArg, end: TimeArg, defaultStart: int, defaultEnd: int, now: int): (r: Result<(int, int)>)
    ensures r == Err(TimeFormatError) <==> start == Malformed || end == Malformed
    ensures r.Ok? <==>
      start != Malformed && end != Malformed &&
      now <= Resolve(start, defaultStart) < Resolve(end, defaultEnd)
    ensures r.Ok? ==> r.value == (Resolve(start, defaultStart), Resolve(end, defaultEnd))
    ensures r == Err(StartInPast) <==>
      start != Malformed && end != Malformed && Resolve(start, defaultStart) < now
    ensures r == Err(EndNotAfterStart) <==>
      start != Malformed && end != Malformed &&
      now <= Resolve(start, defaultStart) && Resolve(end, defaultEnd) <= Resolve(start, defaultStart)
  {
    if start == Malformed || end == Malformed then Err(TimeFormatError)
    else
      var s, e := Resolve(start, defaultStart), Resolve(end, defaultEnd);
      if s < now then Err(StartInPast)
      else if s >= e then Err(EndNotAfterStart)
      else Ok((s, e))
  }

  /** The record a successful `new` stores: no participants yet, one winner, the cap kept. */
  function NewRecord(id: string, session: Session, keyword: string, number: int, startTime: int, endTime: int): Lottery {
    Lottery(id, session.userId, session.sceneId, startTime, endTime, keyword,
            1, [], session.selfId, session.adapter, Some(number))
  }

  /**
   * `lottery new`. `now` is the current time, `endOfToday` the default end
   * (23:59:59 of the current day), `newId` the fresh identifier.
   */
  method HandleNew(store: Store, session: Session, superusers: set<UserId>, keyword: Option<string>,
                   number: int, start: TimeArg, end: TimeArg, now: int, endOfToday: int, newId: string)
    returns (reply: Reply, after: Store)
    ensures reply.Rejected? || reply.Created?
    ensures reply.Rejected? ==> after == store
    ensures reply == Rejected(NotPermitted) <==> session.member.Some? && session.userId !in superusers
    ensures MayCreate(session, superusers) ==> (reply == Rejected(NoKeyword) <==> keyword.None?)
    ensures MayCreate(session, superusers) && keyword.Some? ==>
      var times := TimeChecks(start, end, now, endOfToday, now);
      var lotteries := SceneList(store, session.sceneId);
      && (times.Err? ==> reply == Rejected(times.error))
      && (times.Ok? ==>
            (reply == Rejected(DuplicateKeyword) <==>
               exists k :: 0 <= k < |lotteries| && lotteries[k].keyword == keyword.value))
    ensures reply.Created? ==>
      var times := TimeChecks(start, end, now, endOfToday, now);
      && MayCreate(session, superusers) && keyword.Some? && times.Ok?
      && reply.lottery == NewRecord(newId, session, keyword.value, number, times.value.0, times.value.1)
      && reply.lottery.participants == []
      && session.sceneId in after
      && after[session.sceneId] == SceneList(store, session.sceneId) + [reply.lottery]
      && (forall s :: s != session.sceneId ==> (s in after <==> s in store))
      && (forall s :: s in store && s != session.sceneId ==> after[s] == store[s])
    ensures reply.Created? <==>
      && MayCreate(session, superusers) && keyword.Some?
      && TimeChecks(start, end, now, endOfToday, now).Ok?
      && forall k :: 0 <= k < |SceneList(store, session.sceneId)| ==>
           SceneList(store, session.sceneId)[k].keyword != keyword.value
    ensures Valid(store) ==> Valid(after)
  {
    if session.member.Some? && session.userId !in superusers {
      return Rejected(NotPermitted), store;
    }
    if keyword.None? {
      return Rejected(NoKeyword), store;
    }
    var kw := keyword.value;
    var times := TimeChecks(start, end, now, endOfToday, now);
    if times.Err? {
      return Rejected(times.error), store;
    }
    var scene := session.sceneId;
    if scene in store {
      var lotteries := store[scene];
      var i := 0;
      while i < |lotteries|
        invariant 0 <= i <= |lotteries|
        invariant forall k :: 0 <= k < i ==> lotteries[k].keyword != kw
      {
        if lotteries[i].keyword == kw {
          assert SceneList(store, scene)[i].keyword == kw;
          return Rejected(DuplicateKeyword), store;
        }
        i := i + 1;
      }
    }
    var lottery := NewRecord(newId, session, kw, number, times.value.0, times.value.1);
    var existing := if scene in store then store[scene] else [];
    after := store[scene := existing + [lottery]];
    reply := Created(lottery);
  }

  // ---------------------------------------------------------------------------
  // handle_join

  /** The keyword an optional argument stands for; the empty keyword when absent. */
  function KeywordOrEmpty(keyword: Option<string>): string {
    if keyword.Some? then keyword.value else ""
  }

  /** Whether a drawing is selected by a keyword: its keyword contains the given one. */
  predicate Matches(lottery: Lottery, keyword: string) {
    Contains(lottery.keyword, keyword)
  }

  /** The positions, from `from` on, of the drawings the keyword selects, in increasing order. */
  function MatchingIndices(lotteries: seq<Lottery>, keyword: string, from: nat): (r: seq<nat>)
    requires from <= |lotteries|
    decreases |lotteries| - from
    ensures forall t :: 0 <= t < |r| ==> from <= r[t] < |lotteries| && Matches(lotteries[r[t]], keyword)
    ensures forall t1, t2 :: 0 <= t1 < t2 < |r| ==> r[t1] < r[t2]
    ensures forall k :: from <= k < |lotteries| && Matches(lotteries[k], keyword) ==> k in r
  {
    if from == |lotteries| then []
    else
      var rest := MatchingIndices(lotteries, keyword, from + 1);
      if Matches(lotteries[from], keyword) then
        var r := [from] + rest;
        assert forall t :: 0 < t < |r| ==> r[t] == rest[t - 1];
        r
      else rest
  }

  /** A drawing after `user` joins every drawing that `keyword` selects. */
  function JoinOne(lottery: Lottery, keyword: string, user: UserId): Lottery {
    if Matches(lottery, keyword) then lottery.(participants := lottery.participants + [user]) else lottery
  }

  function JoinAll(lotteries: seq<Lottery>, keyword: string, user: UserId): seq<Lottery> {
    seq(|lotteries|, k requires 0 <= k < |lotteries| => JoinOne(lotteries[k], keyword, user))
  }

  /**
   * A join adds the caller exactly once, at the end, to every selected drawing that did
   * not hold the caller; nothing else in any drawing changes.
   */
  lemma JoinAddsCallerOnce(lotteries: seq<Lottery>, keyword: string, user: UserId, k: nat)
    requires k < |lotteries|
    ensures |JoinAll(lotteries, keyword, user)| == |lotteries|
    ensures var l, l' := lotteries[k], JoinAll(lotteries, keyword, user)[k];
      && l'.(participants := l.participants) == l
      && (Matches(l, keyword) && user !in l.participants ==>
            && |l'.participants| == |l.participants| + 1
            && l'.participants[..|l.participants|] == l.participants
            && multiset(l'.participants)[user] == 1)
      && (!Matches(l, keyword) ==> l' == l)
  {
    var l, l' := lotteries[k], JoinAll(lotteries, keyword, user)[k];
    if Matches(l, keyword) && user !in l.participants {
      assert l'.participants == l.participants + [user];
      assert multiset(l.participants)[user] == 0;
      assert l'.participants[..|l.participants|] == l.participants;
    }
  }

  /** Joining every selected drawing of a valid scene keeps it valid. */
  lemma JoinKeepsSceneValid(scene: SceneId, lotteries: seq<Lottery>, keyword: string, user: UserId)
    requires SceneValid(scene, lotteries)
    ensures SceneValid(scene, JoinAll(lotteries, keyword, user))
  {
    var r := JoinAll(lotteries, keyword, user);
    assert forall k :: 0 <= k < |r| ==> r[k].keyword == lotteries[k].keyword;
  }

  /**
   * The loop of `join` over the selected drawings: refuse if the caller already takes
   * part in one of them, otherwise append the caller to each. The selected entries alias
   * the entries of the scene list, so the loop over them is a loop over the list's
   * positions that skips the drawings not selected.
   */
  method AppendToSelected(lotteries: seq<Lottery>, keyword: string, user: UserId)
    returns (ok: bool, updated: seq<Lottery>)
    ensures ok <==> forall k :: 0 <= k < |lotteries| && Matches(lotteries[k], keyword) ==>
                       user !in lotteries[k].participants
    ensures ok ==> updated == JoinAll(lotteries, keyword, user)
  {
    updated := lotteries;
    var i := 0;
    while i < |lotteries|
      invariant 0 <= i <= |lotteries|
      invariant |updated| == |lotteries|
      invariant forall k :: 0 <= k < i && Matches(lotteries[k], keyword) ==> user !in lotteries[k].participants
      invariant forall k :: 0 <= k < i ==> updated[k] == JoinOne(lotteries[k], keyword, user)
      invariant forall k :: i <= k < |lotteries| ==> updated[k] == lotteries[k]
    {
      if Matches(updated[i], keyword) {
        if user in updated[i].participants {
          return false, updated;
        }
        updated := updated[i := updated[i].(participants := updated[i].participants + [user])];
      }
      i := i + 1;
    }
    ok := true;
  }

  /** `lottery join <keyword>` */
  method HandleJoin(store: Store, session: Session, keyword: Option<string>)
    returns (reply: Reply, after: Store)
    ensures reply.Rejected? || reply == Joined
    ensures reply.Rejected? ==> reply.why in {NoLotteryInScene, NoMatch, AlreadyJoined}
    ensures reply.Rejected? ==> after == store
    ensures reply == Rejected(NoLotteryInScene) <==> session.sceneId !in store
    ensures session.sceneId in store ==>
      var lotteries, kw, user := store[session.sceneId], KeywordOrEmpty(keyword), session.userId;
      && (reply == Rejected(NoMatch) <==>
            forall k :: 0 <= k < |lotteries| ==> !Matches(lotteries[k], kw))
      && (reply == Rejected(AlreadyJoined) <==>
            exists k :: 0 <= k < |lotteries| && Matches(lotteries[k], kw) && user in lotteries[k].participants)
      && (reply == Joined ==> after == store[session.sceneId := JoinAll(lotteries, kw, user)])
    ensures Valid(store) ==> Valid(after)
  {
    var scene := session.sceneId;
    if scene !in store {
      return Rejected(NoLotteryInScene), store;
    }
    var lotteries := store[scene];
    var kw := KeywordOrEmpty(keyword);
    var matching := MatchingIndices(lotteries, kw, 0);
    if matching == [] {
      return Rejected(NoMatch), store;
    }
    assert Matches(lotteries[matching[0]], kw);
    var ok, updated := AppendToSelected(lotteries, kw, session.userId);
    if !ok {
      return Rejected(AlreadyJoined), store;
    }
    after := store[scene := updated];
    reply := Joined;
    if Valid(store) {
      JoinKeepsSceneValid(scene, lotteries, kw, session.userId);
    }
  }

  // ---------------------------------------------------------------------------
  // handle_delete

  /** The caller may delete a drawing they created, and a superuser may delete any. */
  predicate MayDelete(session: Session, lottery: Lottery, superusers: set<UserId>) {
    session.userId == lottery.creator || session.userId in superusers
  }

  function Matching(keyword: string): Lottery -> bool {
    (l: Lottery) => Matches(l, keyword)
  }

  function NotMatching(keyword: string): Lottery -> bool {
    (l: Lottery) => !Matches(l, keyword)
  }

  /**
   * The loop of `delete` over the selected drawings, in their list order: refuse if the
   * caller may not delete one of them, otherwise remove each from the scene list with
   * `list.remove`.
   */
  method RemoveSelected(session: Session, superusers: set<UserId>, lotteries: seq<Lottery>, keyword: string)
    returns (ok: bool, remaining: seq<Lottery>)
    ensures ok <==> forall k :: 0 <= k < |lotteries| && Matches(lotteries[k], keyword) ==>
                       MayDelete(session, lotteries[k], superusers)
    ensures ok ==> remaining == Filter(lotteries, NotMatching(keyword))
  {
    var matching := Filter(lotteries, Matching(keyword));
    RemovingMatchesLeavesRest([], lotteries, Matching(keyword), NotMatching(keyword));
    assert [] + lotteries == lotteries;
    remaining := lotteries;
    var j := 0;
    while j < |matching|
      invariant 0 <= j <= |matching|
      invariant forall t :: 0 <= t < j ==> MayDelete(session, matching[t], superusers)
      invariant Removable(remaining, matching[j..])
      invariant RemoveEach(remaining, matching[j..]) == Filter(lotteries, NotMatching(keyword))
    {
      if !MayDelete(session, matching[j], superusers) {
        assert matching[j] in lotteries;
        return false, remaining;
      }
      assert matching[j..][1..] == matching[j + 1..];
      remaining := RemoveFirst(remaining, matching[j]);
      j := j + 1;
    }
    forall k | 0 <= k < |lotteries| && Matches(lotteries[k], keyword)
      ensures MayDelete(session, lotteries[k], superusers)
    {
      assert lotteries[k] in matching;
    }
    ok := true;
  }

  /**
   * `lottery delete <keyword>`, with each stored drawing read as a record: every
   * drawing the keyword selects is removed, provided the caller may delete each one.
   */
  method HandleDelete(store: Store, session: Session, superusers: set<UserId>, keyword: Option<string>)
    returns (reply: Reply, after: Store)
    ensures reply.Rejected? || reply == Deleted
    ensures reply.Rejected? ==> reply.why in {NoLotteryInScene, NoMatch, NotAuthorized}
    ensures reply.Rejected? ==> after == store
    ensures reply == Rejected(NoLotteryInScene) <==> SceneList(store, session.sceneId) == []
    ensures SceneList(store, session.sceneId) != [] ==>
      var lotteries, kw := store[session.sceneId], KeywordOrEmpty(keyword);
      && (reply == Rejected(NoMatch) <==>
            forall k :: 0 <= k < |lotteries| ==> !Matches(lotteries[k], kw))
      && (reply == Rejected(NotAuthorized) <==>
            exists k :: 0 <= k < |lotteries| && Matches(lotteries[k], kw) &&
                        !MayDelete(session, lotteries[k], superusers))
      && (reply == Deleted ==> after == store[session.sceneId := Filter(lotteries, NotMatching(kw))])
    ensures Valid(store) ==> Valid(after)
  {
    var scene := session.sceneId;
    if scene !in store || store[scene] == [] {
      return Rejected(NoLotteryInScene), store;
    }
    var lotteries := store[scene];
    var kw := KeywordOrEmpty(keyword);
    if Filter(lotteries, Matching(kw)) == [] {
      forall k | 0 <= k < |lotteries| ensures !Matches(lotteries[k], kw) {
        assert lotteries[k] in lotteries;
      }
      return Rejected(NoMatch), store;
    }
    assert Filter(lotteries, Matching(kw))[0] in lotteries;
    var ok, remaining := RemoveSelected(session, superusers, lotteries, kw);
    if !ok {
      return Rejected(NotAuthorized), store;
    }
    after := store[scene := remaining];
    reply := Deleted;
    if Valid(store) {
      FilterKeepsSceneValid(scene, lotteries, NotMatching(kw));
    }
  }

  // ---------------------------------------------------------------------------
  // execute_lottery_and_delete

  /** The position, from `from` on, of the first drawing with the given id. */
  function FirstWithId(lotteries: seq<Lottery>, id: string, from: nat): (r: Option<nat>)
    requires from <= |lotteries|
    decreases |lotteries| - from
    ensures r.Some? ==>
      from <= r.value < |lotteries| && lotteries[r.value].id == id &&
      forall t :: from <= t < r.value ==> lotteries[t].id != id
    ensures r.None? ==> forall t :: from <= t < |lotteries| ==> lotteries[t].id != id
  {
    if from == |lotteries| then None
    else if lotteries[from].id == id then Some(from)
    else FirstWithId(lotteries, id, from + 1)
  }

  function IdIsNot(id: string): Lottery -> bool {
    (l: Lottery) => l.id != id
  }

  datatype DrawOutcome =
    | NoLotteriesInScene
    | NoSuchLottery
    | NoParticipants
    | Won(keyword: string, winner: UserId)

  datatype DrawResult = DrawResult(outcome: DrawOutcome, store: Store)

  /**
   * The scheduled draw for drawing `id` in `scene`. `pick` stands for the random
   * choice: the winner is the participant at position `pick` modulo their number.
   */
  function ExecuteDraw(store: Store, scene: SceneId, id: string, pick: nat): (r: DrawResult)
    ensures !r.outcome.Won? ==> r.store == store
    ensures r.outcome == NoLotteriesInScene <==> scene !in store
    ensures scene in store ==>
      var lotteries := store[scene];
      && (r.outcome == NoSuchLottery <==> forall k :: 0 <= k < |lotteries| ==> lotteries[k].id != id)
      && (r.outcome.Won? ==>
            && (exists k :: 0 <= k < |lotteries| && lotteries[k].id == id &&
                  (forall t :: 0 <= t < k ==> lotteries[t].id != id) &&
                  r.outcome.winner in lotteries[k].participants &&
                  r.outcome.keyword == lotteries[k].keyword)
            && r.store == store[scene := Filter(lotteries, IdIsNot(id))])
    ensures r.outcome == NoParticipants <==>
      scene in store && FirstWithId(store[scene], id, 0).Some? &&
      store[scene][FirstWithId(store[scene], id, 0).value].participants == []
  {
    if scene !in store then DrawResult(NoLotteriesInScene, store)
    else
      var lotteries := store[scene];
      match FirstWithId(lotteries, id, 0)
      case None => DrawResult(NoSuchLottery, store)
      case Some(k) =>
        var participants := lotteries[k].participants;
        if participants == [] then DrawResult(NoParticipants, store)
        else
          var winner := participants[pick % |participants|];
          DrawResult(Won(lotteries[k].keyword, winner), store[scene := Filter(lotteries, IdIsNot(id))])
  }

  /** Every participant of the drawn drawing can be the winner. */
  lemma EveryParticipantCanWin(store: Store, scene: SceneId, id: string, winner: UserId)
    requires scene in store
    requires FirstWithId(store[scene], id, 0).Some?
    requires winner in store[scene][FirstWithId(store[scene], id, 0).value].participants
    ensures exists pick: nat :: ExecuteDraw(store, scene, id, pick).outcome == Won(
      store[scene][FirstWithId(store[scene], id, 0).value].keyword, winner)
  {
    var participants := store[scene][FirstWithId(store[scene], id, 0).value].participants;
    var i :| 0 <= i < |participants| && participants[i] == winner;
    assert i % |participants| == i;
    assert ExecuteDraw(store, scene, id, i).outcome.winner == winner;
  }

  /**
   * After a draw the scene keeps the drawings with other ids in their old order: of two
   * such drawings, the earlier one is still the earlier one.
   */
  lemma DrawKeepsOthersInOrder(lotteries: seq<Lottery>, id: string, i: nat, j: nat)
    requires i < j < |lotteries|
    requires lotteries[i].id != id && lotteries[j].id != id
    ensures var r := Filter(lotteries, IdIsNot(id));
      exists a, b :: 0 <= a < b < |r| && r[a] == lotteries[i] && r[b] == lotteries[j]
  {
    FilterKeepsOrder(lotteries, IdIsNot(id), i, j);
  }

  /** The draw keeps the store invariant. */
  lemma DrawKeepsValid(store: Store, scene: SceneId, id: string, pick: nat)
    requires Valid(store)
    ensures Valid(ExecuteDraw(store, scene, id, pick).store)
  {
    if scene in store {
      FilterKeepsSceneValid(scene, store[scene], IdIsNot(id));
    }
  }

  // ---------------------------------------------------------------------------
  // handle_list

  function LineOf(lottery: Lottery): Line
    requires lottery.participantsLimit.Some?
  {
    Line(lottery.keyword, lottery.startTime, lottery.endTime, |lottery.participants|,
         lottery.participantsLimit.value)
  }

  /**
   * `lottery list`: one line per drawing of the scene, in order. Reading the cap of a
   * drawing that has none raises AttributeError.
   */
  function HandleList(store: Store, session: Session): (reply: Reply)
    ensures reply.Rejected? || reply.Crashed? || reply.Listing?
    ensures reply.Rejected? ==> reply.why == NoLotteryInScene
    ensures var lotteries := SceneList(store, session.sceneId);
      && (reply == Rejected(NoLotteryInScene) <==> lotteries == [])
      && (reply.Crashed? <==>
            exists k :: 0 <= k < |lotteries| && lotteries[k].participantsLimit.None?)
      && (reply.Listing? ==>
            && |reply.lines| == |lotteries|
            && forall k :: 0 <= k < |lotteries| ==>
                 && reply.lines[k].keyword == lotteries[k].keyword
                 && reply.lines[k].startTime == lotteries[k].startTime
                 && reply.lines[k].endTime == lotteries[k].endTime
                 && reply.lines[k].joined == |lotteries[k].participants|
                 && Some(reply.lines[k].limit) == lotteries[k].participantsLimit)
    ensures Valid(store) ==> reply.Rejected? || reply.Listing?
  {
    var lotteries := SceneList(store, session.sceneId);
    if lotteries == [] then Rejected(NoLotteryInScene)
    else if exists k :: 0 <= k < |lotteries| && lotteries[k].participantsLimit.None? then
      Crashed(LimitAttribute)
    else
      Listing(seq(|lotteries|, k requires 0 <= k < |lotteries| => LineOf(lotteries[k])))
  }
}
