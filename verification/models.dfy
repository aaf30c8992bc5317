/** The record kept for one drawing, and the store that holds them. */
module Models {

  datatype Option<T> = None | Some(value: T)

  type SceneId = string
  type UserId = string

  /**
   * One drawing. Times are the already-parsed start and end instants (seconds).
   * `participantsLimit` is the cap given with `--number`. The record model of the
   * source has no such field, so a record built as written has `None` here (the
   * attribute is absent); the corrected creation stores `Some(number)`.
   */
  datatype Lottery = Lottery(
    id: string,
    creator: UserId,
    scene: SceneId,
    startTime: int,
    endTime: int,
    keyword: string,
    numberOfWinners: int,
    participants: seq<UserId>,
    botId: string,
    adapter: string,
    participantsLimit: Option<int>)

  /** The persisted document: scene id to the scene's drawings, in creation order. */
  type Store = map<SceneId, seq<Lottery>>

  /** The scene's list, or the empty list when the scene has no entry. */
  function SceneList(store: Store, scene: SceneId): seq<Lottery> {
    if scene in store then store[scene] else []
  }
}
