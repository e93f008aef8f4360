/** `POST /api/generate` (src/app/api/generate/route.ts) over the store of src/lib/store.ts:
    validate the body, then ask the rate limiter, and only then register the generation. */
module GenerateRoute {
  import opened Common
  import opened LocalStore

  /** The parsed JSON body; the route sees `null` (None) when the body does not parse. */
  datatype Body = Body(image: Option<string>, promptOverride: Option<string>, message: Option<string>)

  datatype Response =
    | BadRequest(error: string)
    | TooManyRequests(error: string)
    | Success(generation: Generation, message: string)

  function StatusCode(r: Response): int
  {
    match r
    case BadRequest(_) => 400
    case TooManyRequests(_) => 429
    case Success(_, _) => 200
  }

  const MissingImage := "画像が見つかりませんでした。"
  const MockNotice := "モック生成。実運用では Firebase Functions から Gemini を呼び出してください。"

  /** `body?.image` is truthy. */
  predicate HasImage(body: Option<Body>)
  {
    body.Some? && Truthy(body.value.image)
  }

  /** One request: its body, the caller's id from the identity cookie, the instant it is handled,
      and the two fresh ids `nanoid` would draw. */
  datatype Call = Call(body: Option<Body>, userId: string, now: string, genId: string, logId: string)

  /** The store after one request, and the response (src/app/api/generate/route.ts:6-29). */
  function Respond(s: State, c: Call, render: (string, string, int) -> string): (r: (State, Response))
    ensures !HasImage(c.body) ==> r == (s, BadRequest(MissingImage))
    ensures HasImage(c.body) && CheckRateLimit(s, c.userId, c.now).Denied? ==>
      r == (s, TooManyRequests(CheckRateLimit(s, c.userId, c.now).reason))
    ensures HasImage(c.body) && CheckRateLimit(s, c.userId, c.now).Allowed? ==>
      var reg := Registered(s, c.userId, c.body.value.image.value, c.body.value.promptOverride,
                            c.body.value.message, c.now, c.genId, c.logId, render);
      r == (reg.0, Success(reg.1, MockNotice))
  {
    if !HasImage(c.body) then (s, BadRequest(MissingImage))
    else
      var rate := CheckRateLimit(s, c.userId, c.now);
      if rate.Denied? then (s, TooManyRequests(rate.reason))
      else
        var b := c.body.value;
        var reg := Registered(s, c.userId, b.image.value, b.promptOverride, b.message, c.now, c.genId, c.logId, render);
        (reg.0, Success(reg.1, MockNotice))
  }

  /** The handler: the same user id goes to the rate limiter and to the registration. */
  method Post(store: Store, body: Option<Body>, userId: string, now: string, genId: string, logId: string)
    returns (response: Response)
    requires store.Valid()
    requires genId !in Ids(store.gallery) && logId !in LogIds(store.logs)
    modifies store
    ensures store.Valid()
    ensures (store.Snapshot(), response) ==
      Respond(old(store.Snapshot()), Call(body, userId, now, genId, logId), store.render)
  {
    if !HasImage(body) {
      return BadRequest(MissingImage);
    }
    var rate := CheckRateLimit(store.Snapshot(), userId, now);
    if rate.Denied? {
      return TooManyRequests(rate.reason);
    }
    var generation := store.RegisterGeneration(
      userId, body.value.image.value, body.value.promptOverride, body.value.message, now, genId, logId);
    response := Success(generation, MockNotice);
  }

  /** Through this route the placeholder image is never drawn: a successful request has a non-empty
      image, which becomes both the input and the output of the new generation. */
  lemma RespondOutputIsImage(s: State, c: Call, render: (string, string, int) -> string)
    ensures var r := Respond(s, c, render);
      r.1.Success? ==>
        && HasImage(c.body)
        && r.1.generation.inputUrl == c.body.value.image.value
        && r.1.generation.outputUrl == c.body.value.image.value
        && StatusCode(r.1) == 200
  {
  }

  /** A sequence of requests handled one after the other. */
  function Run(s: State, calls: seq<Call>, render: (string, string, int) -> string): (r: (State, seq<Response>))
    ensures |r.1| == |calls|
    decreases |calls|
  {
    if calls == [] then (s, [])
    else
      var first := Respond(s, calls[0], render);
      var rest := Run(first.0, calls[1..], render);
      (rest.0, [first.1] + rest.1)
  }

  /** The generations the successful responses carry, in request order. */
  function Created(rs: seq<Response>): seq<Generation>
  {
    if rs == [] then []
    else (if rs[0].Success? then [rs[0].generation] else []) + Created(rs[1..])
  }

  /** How many of the requests made by `userId` succeeded. */
  function SuccessesOf(calls: seq<Call>, rs: seq<Response>, userId: string): nat
    requires |calls| == |rs|
  {
    if calls == [] then 0
    else (if calls[0].userId == userId && rs[0].Success? then 1 else 0) + SuccessesOf(calls[1..], rs[1..], userId)
  }

  /** The user's generation count for `today` as the store records it. */
  function CountOn(s: State, userId: string, today: string): int
  {
    if userId in s.stats.perUser && s.stats.perUser[userId].dateKey == today then s.stats.perUser[userId].count else 0
  }

  /** What one request does to the gallery, the counter and the settings: a success prepends its
      generation and counts it, and needs the global quota not to be reached; anything else changes nothing. */
  lemma RespondEffect(s: State, c: Call, render: (string, string, int) -> string)
    ensures var r := Respond(s, c, render);
      && r.0.settings == s.settings
      && (r.1.Success? ==>
            && s.stats.total < s.settings.globalLifetimeQuota
            && r.0.gallery == [r.1.generation] + s.gallery
            && r.0.stats.total == s.stats.total + 1)
      && (!r.1.Success? ==> r.0 == s)
  {
  }

  /** After any sequence of requests the gallery holds the new generations newest-first in front of the
      old gallery, the global counter grew by their number, and the settings did not change. */
  lemma {:induction false} RunGallery(s: State, calls: seq<Call>, render: (string, string, int) -> string)
    ensures var r := Run(s, calls, render);
      && r.0.gallery == Reversed(Created(r.1)) + s.gallery
      && r.0.stats.total == s.stats.total + |Created(r.1)|
      && r.0.settings == s.settings
    decreases |calls|
  {
    if calls != [] {
      var first := Respond(s, calls[0], render);
      var rest := Run(first.0, calls[1..], render);
      RespondEffect(s, calls[0], render);
      RunGallery(first.0, calls[1..], render);
      var rs := [first.1] + rest.1;
      assert rs[1..] == rest.1;
      if first.1.Success? {
        var g := first.1.generation;
        assert Created(rs) == [g] + Created(rest.1);
        assert ([g] + Created(rest.1))[1..] == Created(rest.1);
        assert Reversed(Created(rs)) == Reversed(Created(rest.1)) + [g];
      } else {
        assert Created(rs) == Created(rest.1);
      }
    }
  }

  /** However many requests arrive, the global counter never passes the global quota through this
      route: at most `globalLifetimeQuota - total` of them succeed, and none once the quota is reached. */
  lemma {:induction false} GlobalQuotaCap(s: State, calls: seq<Call>, render: (string, string, int) -> string)
    ensures s.stats.total + |Created(Run(s, calls, render).1)| <= Max(s.stats.total, s.settings.globalLifetimeQuota)
    decreases |calls|
  {
    if calls != [] {
      var first := Respond(s, calls[0], render);
      var rest := Run(first.0, calls[1..], render);
      RespondEffect(s, calls[0], render);
      GlobalQuotaCap(first.0, calls[1..], render);
      var rs := [first.1] + rest.1;
      assert rs[1..] == rest.1;
      if first.1.Success? {
        assert Created(rs) == [first.1.generation] + Created(rest.1);
      } else {
        assert Created(rs) == Created(rest.1);
      }
    }
  }

  /** Within one calendar day a user gets at most `perUserDailyQuota` successful generations,
      counting those the store already holds for that day; other users' requests do not matter. */
  lemma {:induction false} DailyQuotaCap(
    s: State, calls: seq<Call>, render: (string, string, int) -> string, userId: string, today: string)
    requires s.settings.perUserDailyQuota >= 1
    requires forall i :: 0 <= i < |calls| ==> DayKey(calls[i].now) == today
    ensures CountOn(s, userId, today) + SuccessesOf(calls, Run(s, calls, render).1, userId)
      <= Max(CountOn(s, userId, today), s.settings.perUserDailyQuota)
    decreases |calls|
  {
    if calls != [] {
      var c := calls[0];
      var first := Respond(s, c, render);
      var rest := Run(first.0, calls[1..], render);
      DailyQuotaCap(first.0, calls[1..], render, userId, today);
      var rs := [first.1] + rest.1;
      assert rs[1..] == rest.1;
      assert SuccessesOf(calls, rs, userId) ==
        (if c.userId == userId && first.1.Success? then 1 else 0) + SuccessesOf(calls[1..], rest.1, userId);
      if first.1.Success? {
        if c.userId == userId {
          assert CountOn(first.0, userId, today) == CountOn(s, userId, today) + 1;
          assert CountOn(first.0, userId, today) <= s.settings.perUserDailyQuota;
        } else {
          assert CountOn(first.0, userId, today) == CountOn(s, userId, today);
        }
      }
    }
  }
}
