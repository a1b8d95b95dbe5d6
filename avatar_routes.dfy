/**
 * server/routes/avatar.js: GET and POST of avatar data kept in a
 * module-level object keyed by user id.  `new Date()` is the parameter `now`.
 */
module AvatarRoutes {
  import opened Json

  /** A POST body must carry a truthy `race` and a truthy `class`. */
  predicate ValidChanges(changes: Record)
    ensures ValidChanges(changes) ==> "race" in changes && "class" in changes
    ensures ValidChanges(changes) ==>
      && changes["race"] !in {Null, Bool(false), Number(0), Str("")}
      && changes["class"] !in {Null, Bool(false), Number(0), Str("")}
  {
    HasTruthy(changes, "race") && HasTruthy(changes, "class")
  }

  /**
   * `{...previous, ...changes, lastUpdated: now}`: the body's fields win,
   * fields it leaves out are kept, and `lastUpdated` is always the new time.
   */
  function Merged(previous: Record, changes: Record, now: int): (r: Record)
    ensures r.Keys == previous.Keys + changes.Keys + {"lastUpdated"}
    ensures r["lastUpdated"] == Date(now)
    ensures forall k :: k in changes && k != "lastUpdated" ==> r[k] == changes[k]
    ensures forall k :: k in previous && k !in changes && k != "lastUpdated" ==> r[k] == previous[k]
  {
    previous + changes + map["lastUpdated" := Date(now)]
  }

  /** A POST that passed validation stores a record that passes it again. */
  lemma MergedStaysValid(previous: Record, changes: Record, now: int)
    requires ValidChanges(changes)
    ensures ValidChanges(Merged(previous, changes, now))
  {
  }

  class Router {
    var avatarData: map<string, Record>

    constructor ()
      ensures avatarData == map[]
    {
      avatarData := map[];
    }

    /** GET /:userId: the stored record, or `{}` for an unknown user. */
    method Get(userId: string) returns (body: Record)
      ensures userId in avatarData ==> body == avatarData[userId]
      ensures userId !in avatarData ==> body == map[]
    {
      body := if userId in avatarData then avatarData[userId] else map[];
    }

    /** POST /:userId: 400 without race or class; otherwise merge, stamp and echo the record. */
    method Post(userId: string, changes: Record, now: int) returns (response: Response)
      modifies this
      ensures !ValidChanges(changes) ==>
        response == Response(400, ErrorBody("Missing required avatar properties")) &&
        avatarData == old(avatarData)
      ensures ValidChanges(changes) ==>
        var previous := if userId in old(avatarData) then old(avatarData)[userId] else map[];
        && avatarData == old(avatarData)[userId := Merged(previous, changes, now)]
        && response == Response(200, avatarData[userId])
    {
      if !HasTruthy(changes, "race") || !HasTruthy(changes, "class") {
        return Response(400, ErrorBody("Missing required avatar properties"));
      }
      var previous := if userId in avatarData then avatarData[userId] else map[];
      avatarData := avatarData[userId := Merged(previous, changes, now)];
      response := Response(200, avatarData[userId]);
    }
  }

  /** A GET after a successful POST returns what the POST answered; other users are untouched. */
  method PostThenGet(router: Router, userId: string, changes: Record, now: int, other: string)
    returns (posted: Response, fetched: Record)
    requires ValidChanges(changes)
    requires other != userId
    modifies router
    ensures posted.status == 200 && fetched == posted.body
    ensures other in router.avatarData <==> other in old(router.avatarData)
    ensures other in router.avatarData ==> router.avatarData[other] == old(router.avatarData)[other]
  {
    posted := router.Post(userId, changes, now);
    fetched := router.Get(userId);
  }
}
