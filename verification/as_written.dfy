/**
 * Three places where the handlers, as written, do not do what they evidently mean to.
 * Each is modelled here as written, with the input that shows the discrepancy; the
 * handlers in LotteryPlugin implement the intended behaviour.
 */
module AsWritten {
  import opened Models
  import opened Seqs
  import opened LotteryPlugin

  // ---------------------------------------------------------------------------
  // The participant cap is dropped on creation and then read by the listing.

  /**
   * The record `new` builds as written: the cap is passed under a name the record model
   * does not declare, so the model ignores it and the record has no cap attribute.
   */
  function NewRecordAsWritten(id: string, session: Session, keyword: string, number: int,
                              startTime: int, endTime: int): Lottery
  {
    Lottery(id, session.userId, session.sceneId, startTime, endTime, keyword,
            1, [], session.selfId, session.adapter, None)
  }

  /**
   * As written, `--number` has no effect on what is stored, and once a drawing has been
   * created the listing of its scene fails with AttributeError.
   */
  lemma CapLostAsWritten(store: Store, session: Session, id: string, keyword: string,
                         number: int, other: int, startTime: int, endTime: int)
    ensures NewRecordAsWritten(id, session, keyword, number, startTime, endTime)
         == NewRecordAsWritten(id, session, keyword, other, startTime, endTime)
    ensures var lottery := NewRecordAsWritten(id, session, keyword, number, startTime, endTime);
      HandleList(store[session.sceneId := SceneList(store, session.sceneId) + [lottery]], session)
        == Crashed(LimitAttribute)
  {
    var lottery := NewRecordAsWritten(id, session, keyword, number, startTime, endTime);
    var lotteries := SceneList(store, session.sceneId) + [lottery];
    assert SceneList(store[session.sceneId := lotteries], session.sceneId) == lotteries;
    assert lotteries[|lotteries| - 1].participantsLimit.None?;
  }

  /**
   * With the cap stored, a scene whose drawings all carry one lists cleanly after a
   * creation, and the new drawing's line shows the cap that was asked for.
   */
  lemma ListShowsCapAfterCreate(store: Store, session: Session, id: string, keyword: string,
                                number: int, startTime: int, endTime: int)
    requires forall k :: 0 <= k < |SceneList(store, session.sceneId)| ==>
               SceneList(store, session.sceneId)[k].participantsLimit.Some?
    ensures var lottery := NewRecord(id, session, keyword, number, startTime, endTime);
      var reply := HandleList(store[session.sceneId := SceneList(store, session.sceneId) + [lottery]], session);
      && reply.Listing?
      && |reply.lines| == |SceneList(store, session.sceneId)| + 1
      && reply.lines[|reply.lines| - 1] == Line(keyword, startTime, endTime, 0, number)
  {
    var lottery := NewRecord(id, session, keyword, number, startTime, endTime);
    var lotteries := SceneList(store, session.sceneId) + [lottery];
    assert SceneList(store[session.sceneId := lotteries], session.sceneId) == lotteries;
    assert forall k :: 0 <= k < |lotteries| ==> lotteries[k].participantsLimit.Some?;
  }

  // ---------------------------------------------------------------------------
  // Deletion reads attributes off the raw stored entries.

  /**
   * `delete` as written: the scene's entries are the raw JSON objects of the file, and
   * selecting among them reads `.keyword` off each, which such an object does not have.
   */
  function DeleteAsWritten(store: Store, session: Session, superusers: set<UserId>, keyword: Option<string>): Reply
  {
    if SceneList(store, session.sceneId) == [] then Rejected(NoLotteryInScene)
    else Crashed("keyword")
  }

  /** As written, no caller, not even a drawing's creator or a superuser, can delete it. */
  lemma DeleteNeverDeletesAsWritten(store: Store, session: Session, superusers: set<UserId>, keyword: Option<string>)
    requires session.sceneId in store
    requires exists k :: 0 <= k < |store[session.sceneId]| &&
               Matches(store[session.sceneId][k], KeywordOrEmpty(keyword)) &&
               session.userId == store[session.sceneId][k].creator
    ensures DeleteAsWritten(store, session, superusers, keyword) == Crashed("keyword")
  {
    var k :| 0 <= k < |store[session.sceneId]| && session.userId == store[session.sceneId][k].creator;
    assert SceneList(store, session.sceneId) != [];
  }

  // ---------------------------------------------------------------------------
  // The default start and end are fixed when the handler is defined.

  /**
   * As written, an omitted `--start` stands for `loadTime`, the moment the handler was
   * defined, and an omitted `--end` for 23:59:59 of that day. So once any time has passed
   * since loading, omitting `--start` is always rejected.
   */
  lemma OmittedStartRejectedAsWritten(end: TimeArg, loadTime: int, endOfLoadDay: int, now: int)
    requires end != Malformed
    requires loadTime < now
    ensures TimeChecks(Omitted, end, loadTime, endOfLoadDay, now) == Err(StartInPast)
  {
  }

  /**
   * With the defaults taken at the time of the command, omitting `--start` means "now",
   * which the check accepts whenever the end lies ahead. This needs the default and the
   * current time it is compared with to have the same granularity; see
   * `SameSecondStartRejected` for a default truncated to whole seconds.
   */
  lemma OmittedStartAccepted(end: TimeArg, endOfToday: int, now: int)
    requires end != Malformed
    requires now < Resolve(end, endOfToday)
    ensures TimeChecks(Omitted, end, now, endOfToday, now) == Ok((now, Resolve(end, endOfToday)))
  {
  }

  /**
   * The default start text holds whole seconds, while the current time it is compared
   * with does not. With times counted in microseconds, a default formatted at the time of
   * the command is still refused unless the command arrives exactly on a second.
   */
  lemma SameSecondStartRejected(end: TimeArg, endOfToday: int, now: int)
    requires end != Malformed
    requires now % 1000000 != 0
    ensures TimeChecks(Omitted, end, now - now % 1000000, endOfToday, now) == Err(StartInPast)
  {
  }
}
