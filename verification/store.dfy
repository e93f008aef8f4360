/** The in-memory store behind the generate, settings and logs routes (src/lib/store.ts):
    the settings singleton, the newest-first gallery and log, the global generation
    counter, one rate record per user and the set of generations each user likes. */
module LocalStore {
  import opened Common

  /** `GenerationStatus` (src/lib/types.ts). */
  datatype Status = Completed | Blocked | Failed

  datatype Generation = Generation(
    id: string,
    inputUrl: string,
    outputUrl: string,
    createdAt: string,
    promptUsed: Option<string>,
    status: Status,
    safe: bool,
    likes: int,
    message: Option<string>)

  datatype GenerationLog = GenerationLog(
    id: string,
    generationId: Option<string>,
    status: Status,
    message: string,
    createdAt: string,
    cookieId: Option<string>)

  /** The settings singleton. The text fields can hold `undefined`: the settings route forwards
      a missing body key as an `undefined` value, and the object spread stores it. */
  datatype Settings = Settings(
    promptTemplate: Option<string>,
    perUserDailyQuota: int,
    globalLifetimeQuota: int,
    noticeMessage: Option<string>)

  /** One key of a `Partial<Settings>` object: left out, or present with a value that may be
      `undefined` or `null` (None). The spread tells these apart; `??` does not. */
  datatype Entry<T> = Absent | Present(value: Option<T>)

  datatype SettingsPatch = SettingsPatch(
    promptTemplate: Entry<string>,
    perUserDailyQuota: Entry<int>,
    globalLifetimeQuota: Entry<int>,
    noticeMessage: Entry<string>)

  datatype RateRecord = RateRecord(dateKey: string, count: int, lifetime: int)

  datatype Stats = Stats(
    total: int,
    perUser: map<string, RateRecord>,
    likesByUser: map<string, set<string>>)

  /** The value of the whole store (the `Store` type of src/lib/store.ts). */
  datatype State = State(
    settings: Settings,
    gallery: seq<Generation>,
    logs: seq<GenerationLog>,
    stats: Stats)

  const DefaultSettings := Settings(
    Some("Take the uploaded miniature car photo, cleanly cut out the car, render it in hyper-realistic detail, then stylize into manga/anime with crisp lines and subtle halftones. Preserve lighting and reflections."),
    1,
    50,
    Some("生成コンテンツは全ユーザーに公開されます。"))

  /** The two rejection texts. Both are fixed: they mention 50 and "once a day"
      whatever the configured quotas are. */
  const GlobalLimitReason := "全体の生成上限（50件）に達しました。管理画面で上限を調整してください。"
  const DailyLimitReason := "本日はこれ以上生成できません（1日1回）。"

  const LogMessage := "Generated (mock) via local store. Wire to Firebase Functions for real calls."
  const PlaceholderTitle := "Manga Render"
  const PlaceholderSubtitle := "Gemini output mock"

  /** The ids of a list of generations, position by position. */
  function Ids(gallery: seq<Generation>): (ids: seq<string>)
    ensures |ids| == |gallery|
    ensures forall i :: 0 <= i < |gallery| ==> ids[i] == gallery[i].id
  {
    seq(|gallery|, i requires 0 <= i < |gallery| => gallery[i].id)
  }

  function LogIds(logs: seq<GenerationLog>): (ids: seq<string>)
    ensures |ids| == |logs|
    ensures forall i :: 0 <= i < |logs| ==> ids[i] == logs[i].id
  {
    seq(|logs|, i requires 0 <= i < |logs| => logs[i].id)
  }

  /** The generations `userId` likes (an unknown user likes none). */
  function LikedBy(likesByUser: map<string, set<string>>, userId: string): set<string>
  {
    if userId in likesByUser then likesByUser[userId] else {}
  }

  /** The users that like generation `id`. */
  function Likers(likesByUser: map<string, set<string>>, id: string): set<string>
  {
    set u | u in likesByUser && id in likesByUser[u]
  }

  /** What the initial gallery produced by `seedGallery` looks like: four completed,
      safe records with distinct ids and a non-negative like count. */
  predicate SeedGallery(seed: seq<Generation>)
  {
    && |seed| == 4
    && Distinct(Ids(seed))
    && forall i :: 0 <= i < |seed| ==> seed[i].status == Completed && seed[i].safe && seed[i].likes >= 0
  }

  /** The store as `buildStore` creates it. */
  function Initial(seed: seq<Generation>): State
  {
    State(DefaultSettings, seed, [], Stats(|seed|, map[], map[]))
  }

  /** What every reachable store satisfies: quotas of at least 1, one counted generation per gallery
      entry, unique ids, likes only of existing generations, at least as many likes on a generation
      as users who like it, and rate records with a positive daily count bounded by the lifetime count. */
  predicate Invariant(s: State)
  {
    && s.settings.perUserDailyQuota >= 1
    && s.settings.globalLifetimeQuota >= 1
    && s.stats.total == |s.gallery|
    && Distinct(Ids(s.gallery))
    && Distinct(LogIds(s.logs))
    && (forall u, x :: u in s.stats.likesByUser && x in s.stats.likesByUser[u] ==> x in Ids(s.gallery))
    && (forall i :: 0 <= i < |s.gallery| ==> s.gallery[i].likes >= |Likers(s.stats.likesByUser, s.gallery[i].id)|)
    && (forall u :: u in s.stats.perUser ==> 1 <= s.stats.perUser[u].count <= s.stats.perUser[u].lifetime)
  }

  lemma InitialInvariant(seed: seq<Generation>)
    requires SeedGallery(seed)
    ensures Invariant(Initial(seed))
  {
    forall i | 0 <= i < |seed|
      ensures seed[i].likes >= |Likers(map[], seed[i].id)|
    {
      assert Likers(map[], seed[i].id) == {};
    }
  }

  /** A user's rate record, or a fresh one for `today` when the user has none. */
  function RecordOf(perUser: map<string, RateRecord>, userId: string, today: string): RateRecord
  {
    if userId in perUser then perUser[userId] else RateRecord(today, 0, 0)
  }

  /** `checkRateLimit` (src/lib/store.ts:61-84): the global quota first, then the user's quota for today. */
  function CheckRateLimit(s: State, userId: string, now: string): (r: RateResult)
    ensures r == Denied(GlobalLimitReason) <==> s.stats.total >= s.settings.globalLifetimeQuota
    ensures r == Denied(DailyLimitReason) <==>
      && s.stats.total < s.settings.globalLifetimeQuota
      && RecordOf(s.stats.perUser, userId, DayKey(now)).dateKey == DayKey(now)
      && RecordOf(s.stats.perUser, userId, DayKey(now)).count >= s.settings.perUserDailyQuota
    ensures r.Allowed? || r == Denied(GlobalLimitReason) || r == Denied(DailyLimitReason)
  {
    if s.stats.total >= s.settings.globalLifetimeQuota then
      Denied(GlobalLimitReason)
    else
      var today := DayKey(now);
      var record := RecordOf(s.stats.perUser, userId, today);
      if record.dateKey == today && record.count >= s.settings.perUserDailyQuota then
        Denied(DailyLimitReason)
      else
        Allowed
  }

  /** The user's record after one more generation on `today`. */
  function Bumped(record: RateRecord, today: string): (r: RateRecord)
    ensures r.dateKey == today
    ensures r.count == (if record.dateKey == today then record.count + 1 else 1)
    ensures r.lifetime == record.lifetime + 1
  {
    RateRecord(today, if record.dateKey == today then record.count + 1 else 1, record.lifetime + 1)
  }

  /** `registerGeneration` (src/lib/store.ts:86-144): the store afterwards and the new record.
      `render` stands for `makePlaceholderImage`. */
  function Registered(
    s: State, userId: string, inputUrl: string, prompt: Option<string>, message: Option<string>,
    now: string, genId: string, logId: string, render: (string, string, int) -> string): (State, Generation)
  {
    var today := DayKey(now);
    var record := RecordOf(s.stats.perUser, userId, today);
    var promptUsed := if Truthy(prompt) then prompt else s.settings.promptTemplate;
    var outputUrl := if inputUrl != "" then inputUrl else render(PlaceholderTitle, PlaceholderSubtitle, |s.gallery|);
    var g := Generation(genId, inputUrl, outputUrl, now, promptUsed, Completed, true, 0, message);
    var log := GenerationLog(logId, Some(genId), Completed, LogMessage, now, Some(userId));
    var stats := Stats(s.stats.total + 1, s.stats.perUser[userId := Bumped(record, today)], s.stats.likesByUser);
    (State(s.settings, [g] + s.gallery, [log] + s.logs, stats), g)
  }

  /** What `registerGeneration` does: a completed, safe, unliked record under the fresh id, whose prompt is the
      given one when non-empty and the template otherwise, and whose output is the input image, or the
      placeholder when the input is empty; it goes in front of the gallery, a completed log entry naming it and
      the user goes in front of the log, the global counter grows by one and the user's record is bumped
      for today; settings and likes are untouched. */
  lemma RegisteredEffect(
    s: State, userId: string, inputUrl: string, prompt: Option<string>, message: Option<string>,
    now: string, genId: string, logId: string, render: (string, string, int) -> string)
    ensures var r := Registered(s, userId, inputUrl, prompt, message, now, genId, logId, render);
      && r.1.id == genId && r.1.inputUrl == inputUrl && r.1.createdAt == now && r.1.message == message
      && r.1.status == Completed && r.1.safe && r.1.likes == 0
      && r.1.promptUsed == (if Truthy(prompt) then prompt else s.settings.promptTemplate)
      && r.1.outputUrl == (if inputUrl != "" then inputUrl else render(PlaceholderTitle, PlaceholderSubtitle, |s.gallery|))
      && r.0.gallery == [r.1] + s.gallery
      && |r.0.logs| == |s.logs| + 1 && r.0.logs[1..] == s.logs
      && r.0.logs[0].id == logId && r.0.logs[0].status == Completed && r.0.logs[0].createdAt == now
      && r.0.logs[0].generationId == Some(genId) && r.0.logs[0].cookieId == Some(userId)
      && r.0.stats.total == s.stats.total + 1
      && r.0.stats.perUser == s.stats.perUser[userId := Bumped(RecordOf(s.stats.perUser, userId, DayKey(now)), DayKey(now))]
      && r.0.settings == s.settings && r.0.stats.likesByUser == s.stats.likesByUser
  {
  }

  /** A liked set after one toggle of `id`: removed when present, added otherwise. */
  function Flipped(liked: set<string>, id: string): (r: set<string>)
    ensures id in r <==> id !in liked
    ensures forall x :: x != id ==> (x in r <==> x in liked)
  {
    if id in liked then liked - {id} else liked + {id}
  }

  /** Toggling the same id twice gives the set back. */
  lemma FlippedTwice(liked: set<string>, id: string)
    ensures Flipped(Flipped(liked, id), id) == liked
  {
  }

  /** `toggleLike` (src/lib/store.ts:146-162): the store afterwards and the updated record,
      or None and no change when no generation has that id. */
  function LikeToggled(s: State, generationId: string, userId: string): (State, Option<Generation>)
  {
    match IndexOf(Ids(s.gallery), generationId)
    case None => (s, None)
    case Some(k) =>
      var item := s.gallery[k];
      var liked := LikedBy(s.stats.likesByUser, userId);
      var already := generationId in liked;
      var likes := if already then Max(0, item.likes - 1) else item.likes + 1;
      var liked' := Flipped(liked, generationId);
      var item' := item.(likes := likes);
      (s.(gallery := s.gallery[k := item'],
          stats := s.stats.(likesByUser := s.stats.likesByUser[userId := liked'])), Some(item'))
  }

  /** What `toggleLike` does: nothing when no generation has that id; otherwise the first record with
      that id has its count moved by one (down, floored at 0, when the user already liked it; up otherwise),
      the user's liked set flips on that id alone, and nothing else changes. */
  lemma LikeToggledEffect(s: State, generationId: string, userId: string)
    ensures var r := LikeToggled(s, generationId, userId);
      && (r.1.None? <==> generationId !in Ids(s.gallery))
      && (r.1.None? ==> r.0 == s)
      && (r.1.Some? ==>
            var k := IndexOf(Ids(s.gallery), generationId).value;
            var was := generationId in LikedBy(s.stats.likesByUser, userId);
            && r.1.value == s.gallery[k].(likes := if was then Max(0, s.gallery[k].likes - 1) else s.gallery[k].likes + 1)
            && r.0.gallery == s.gallery[k := r.1.value]
            && (generationId in LikedBy(r.0.stats.likesByUser, userId) <==> !was)
            && (forall x :: x != generationId ==>
                  (x in LikedBy(r.0.stats.likesByUser, userId) <==> x in LikedBy(s.stats.likesByUser, userId)))
            && r.0.stats.likesByUser == s.stats.likesByUser[userId := LikedBy(r.0.stats.likesByUser, userId)]
            && r.0.settings == s.settings && r.0.logs == s.logs
            && r.0.stats.total == s.stats.total && r.0.stats.perUser == s.stats.perUser)
  {
  }

  /** The merge of `updateSettings` (src/lib/store.ts:178-190): every key present in the patch replaces
      the stored value, even with `undefined`, except the quotas, which fall back to the stored value when
      missing or nullish and are clamped to at least 1. */
  function Merged(settings: Settings, patch: SettingsPatch): (r: Settings)
    ensures r.perUserDailyQuota >= 1 && r.globalLifetimeQuota >= 1
    ensures patch.promptTemplate.Absent? ==> r.promptTemplate == settings.promptTemplate
    ensures patch.promptTemplate.Present? ==> r.promptTemplate == patch.promptTemplate.value
    ensures patch.noticeMessage.Absent? ==> r.noticeMessage == settings.noticeMessage
    ensures patch.noticeMessage.Present? ==> r.noticeMessage == patch.noticeMessage.value
    ensures r.perUserDailyQuota == Max(1, QuotaOr(patch.perUserDailyQuota, settings.perUserDailyQuota))
    ensures r.globalLifetimeQuota == Max(1, QuotaOr(patch.globalLifetimeQuota, settings.globalLifetimeQuota))
  {
    Settings(
      match patch.promptTemplate case Absent => settings.promptTemplate case Present(v) => v,
      Max(1, QuotaOr(patch.perUserDailyQuota, settings.perUserDailyQuota)),
      Max(1, QuotaOr(patch.globalLifetimeQuota, settings.globalLifetimeQuota)),
      match patch.noticeMessage case Absent => settings.noticeMessage case Present(v) => v)
  }

  /** `patch.quota ?? stored`. */
  function QuotaOr(entry: Entry<int>, stored: int): int
  {
    match entry
    case Present(Some(q)) => q
    case _ => stored
  }

  /** `getGallery(limit)` (src/lib/store.ts:164-167); the route default is 60. */
  function GetGallery(s: State, limit: int): (r: seq<Generation>)
    ensures r <= s.gallery
    ensures 0 <= limit ==> |r| == Min(limit, |s.gallery|)
  {
    Take(s.gallery, limit)
  }

  /** `getLogs(limit)` (src/lib/store.ts:169-172); the route default is 100. */
  function GetLogs(s: State, limit: int): (r: seq<GenerationLog>)
    ensures r <= s.logs
    ensures 0 <= limit ==> |r| == Min(limit, |s.logs|)
  {
    Take(s.logs, limit)
  }

  /** Setting one user's liked set changes only that user's membership in each likers set. */
  lemma LikersAfterUpdate(m: map<string, set<string>>, userId: string, liked: set<string>, id: string)
    ensures Likers(m[userId := liked], id) ==
      if id in liked then Likers(m, id) + {userId} else Likers(m, id) - {userId}
  {
    var after := Likers(m[userId := liked], id);
    var expected := if id in liked then Likers(m, id) + {userId} else Likers(m, id) - {userId};
    forall u ensures u in after <==> u in expected {
      if u == userId {
        assert u in after <==> id in liked;
      } else {
        assert u in after <==> u in Likers(m, id);
      }
    }
  }

  /** Prepending a record and a log entry under fresh ids, counting the record and giving one user a
      well-formed rate record keeps the invariant; nobody likes the new record yet. */
  lemma PrependInvariant(s: State, g: Generation, log: GenerationLog, userId: string, record: RateRecord)
    requires Invariant(s)
    requires g.id !in Ids(s.gallery) && log.id !in LogIds(s.logs)
    requires g.likes >= 0 && 1 <= record.count <= record.lifetime
    ensures Invariant(State(s.settings, [g] + s.gallery, [log] + s.logs,
                            Stats(s.stats.total + 1, s.stats.perUser[userId := record], s.stats.likesByUser)))
  {
    var gallery := [g] + s.gallery;
    var m := s.stats.likesByUser;
    assert Ids(gallery) == [g.id] + Ids(s.gallery);
    assert LogIds([log] + s.logs) == [log.id] + LogIds(s.logs);
    assert forall i :: 0 <= i < |gallery| ==> gallery[i].likes >= |Likers(m, gallery[i].id)| by {
      assert Likers(m, g.id) == {} by {
        forall u | u in m ensures g.id !in m[u] {}
      }
      forall i | 0 < i < |gallery|
        ensures gallery[i].likes >= |Likers(m, gallery[i].id)|
      {
        assert gallery[i] == s.gallery[i - 1];
      }
    }
  }

  /** Registering a generation under fresh ids keeps the store's invariant. */
  lemma RegisteredInvariant(
    s: State, userId: string, inputUrl: string, prompt: Option<string>, message: Option<string>,
    now: string, genId: string, logId: string, render: (string, string, int) -> string)
    requires Invariant(s)
    requires genId !in Ids(s.gallery) && logId !in LogIds(s.logs)
    ensures Invariant(Registered(s, userId, inputUrl, prompt, message, now, genId, logId, render).0)
  {
    var r := Registered(s, userId, inputUrl, prompt, message, now, genId, logId, render);
    var today := DayKey(now);
    var bumped := Bumped(RecordOf(s.stats.perUser, userId, today), today);
    assert r.0 == State(s.settings, [r.1] + s.gallery, [r.0.logs[0]] + s.logs,
                        Stats(s.stats.total + 1, s.stats.perUser[userId := bumped], s.stats.likesByUser));
    PrependInvariant(s, r.1, r.0.logs[0], userId, bumped);
  }

  /** One like step keeps the invariant: generation `k` gets a count that covers its likers, and
      user `userId` gets a liked set that differs from its old one at most on generation `k`. */
  lemma LikeStepInvariant(s: State, k: nat, userId: string, liked': set<string>, likes': int)
    requires Invariant(s)
    requires k < |s.gallery|
    requires forall x :: x != s.gallery[k].id ==> (x in liked' <==> x in LikedBy(s.stats.likesByUser, userId))
    requires likes' >= |Likers(s.stats.likesByUser[userId := liked'], s.gallery[k].id)|
    ensures Invariant(s.(gallery := s.gallery[k := s.gallery[k].(likes := likes')],
                         stats := s.stats.(likesByUser := s.stats.likesByUser[userId := liked'])))
  {
    var gallery := s.gallery[k := s.gallery[k].(likes := likes')];
    var m := s.stats.likesByUser;
    var m' := m[userId := liked'];
    var ids := Ids(s.gallery);
    assert Ids(gallery) == ids;
    assert forall u, x :: u in m' && x in m'[u] ==> x in ids by {
      forall x | x in liked' ensures x in ids {
        if x != s.gallery[k].id {
          assert userId in m;
        }
      }
    }
    assert forall i :: 0 <= i < |gallery| ==> gallery[i].likes >= |Likers(m', gallery[i].id)| by {
      forall i | 0 <= i < |gallery| && i != k
        ensures gallery[i].likes >= |Likers(m', gallery[i].id)|
      {
        var id := s.gallery[i].id;
        assert id != s.gallery[k].id;
        LikersAfterUpdate(m, userId, liked', id);
        assert id in liked' <==> userId in Likers(m, id);
        assert Likers(m', id) == Likers(m, id);
      }
    }
  }

  /** Toggling a like keeps the store's invariant; in particular no like count becomes negative. */
  lemma LikeToggledInvariant(s: State, generationId: string, userId: string)
    requires Invariant(s)
    ensures Invariant(LikeToggled(s, generationId, userId).0)
  {
    match IndexOf(Ids(s.gallery), generationId)
    case None =>
    case Some(k) =>
      var m := s.stats.likesByUser;
      var liked := LikedBy(m, userId);
      var likes := s.gallery[k].likes;
      var already := generationId in liked;
      var liked' := if already then liked - {generationId} else liked + {generationId};
      var likes' := if already then Max(0, likes - 1) else likes + 1;
      assert LikeToggled(s, generationId, userId).0 ==
        s.(gallery := s.gallery[k := s.gallery[k].(likes := likes')],
           stats := s.stats.(likesByUser := m[userId := liked']));
      assert likes' >= |Likers(m[userId := liked'], generationId)| by {
        LikersAfterUpdate(m, userId, liked', generationId);
        assert already <==> userId in Likers(m, generationId);
      }
      LikeStepInvariant(s, k, userId, liked', likes');
  }

  /** In a store that keeps the invariant no like count is negative, and a generation somebody likes
      has a positive one. */
  lemma LikesCoverLikers(s: State, i: int, userId: string)
    requires Invariant(s)
    requires 0 <= i < |s.gallery|
    ensures s.gallery[i].likes >= if s.gallery[i].id in LikedBy(s.stats.likesByUser, userId) then 1 else 0
  {
    if s.gallery[i].id in LikedBy(s.stats.likesByUser, userId) {
      assert userId in Likers(s.stats.likesByUser, s.gallery[i].id);
    }
  }

  /** One toggle on the generation at index `k`: its count moves by one, floored at 0. */
  lemma ToggleGalleryShape(s: State, generationId: string, userId: string, k: nat)
    requires IndexOf(Ids(s.gallery), generationId) == Some(k)
    ensures var was := generationId in LikedBy(s.stats.likesByUser, userId);
      LikeToggled(s, generationId, userId).0.gallery ==
        s.gallery[k := s.gallery[k].(likes := if was then Max(0, s.gallery[k].likes - 1) else s.gallery[k].likes + 1)]
  {
  }

  /** One toggle on an existing generation: the user's liked set flips on that id, and the ids of
      the gallery stay as they were. */
  lemma ToggleLikesShape(s: State, generationId: string, userId: string)
    requires generationId in Ids(s.gallery)
    ensures LikeToggled(s, generationId, userId).0.stats.likesByUser ==
      s.stats.likesByUser[userId := Flipped(LikedBy(s.stats.likesByUser, userId), generationId)]
    ensures Ids(LikeToggled(s, generationId, userId).0.gallery) == Ids(s.gallery)
  {
  }

  /** The second of two toggles moves the count back. */
  lemma ToggleTwiceGallery(s: State, generationId: string, userId: string, k: nat)
    requires IndexOf(Ids(s.gallery), generationId) == Some(k)
    requires s.gallery[k].likes >= if generationId in LikedBy(s.stats.likesByUser, userId) then 1 else 0
    ensures LikeToggled(LikeToggled(s, generationId, userId).0, generationId, userId).0.gallery == s.gallery
  {
    ToggleGalleryShape(s, generationId, userId, k);
    ToggleLikesShape(s, generationId, userId);
    var s1 := LikeToggled(s, generationId, userId).0;
    ToggleGalleryShape(s1, generationId, userId, k);
    assert LikeToggled(s1, generationId, userId).0.gallery[k] == s.gallery[k];
  }

  /** The second of two toggles flips the user's like back. */
  lemma ToggleTwiceLikes(s: State, generationId: string, userId: string)
    requires generationId in Ids(s.gallery)
    ensures LikeToggled(LikeToggled(s, generationId, userId).0, generationId, userId).0.stats.likesByUser ==
      s.stats.likesByUser[userId := LikedBy(s.stats.likesByUser, userId)]
  {
    var m := s.stats.likesByUser;
    var liked := LikedBy(m, userId);
    ToggleLikesShape(s, generationId, userId);
    var s1 := LikeToggled(s, generationId, userId).0;
    ToggleLikesShape(s1, generationId, userId);
    assert LikedBy(s1.stats.likesByUser, userId) == Flipped(liked, generationId);
    FlippedTwice(liked, generationId);
    assert m[userId := Flipped(liked, generationId)][userId := liked] == m[userId := liked];
  }

  /** Two consecutive toggles by the same user on the generation at index `k` (the first with that id)
      restore every like count and that user's likes; the only trace left is a (possibly empty) entry for
      the user. The count must be at least 0, and positive when the user already likes the generation,
      as `LikesCoverLikers` shows it is in every store that keeps the invariant. */
  lemma LikeToggledTwice(s: State, generationId: string, userId: string, k: nat)
    requires IndexOf(Ids(s.gallery), generationId) == Some(k)
    requires s.gallery[k].likes >= if generationId in LikedBy(s.stats.likesByUser, userId) then 1 else 0
    ensures var s2 := LikeToggled(LikeToggled(s, generationId, userId).0, generationId, userId).0;
      && s2.gallery == s.gallery
      && s2.settings == s.settings && s2.logs == s.logs
      && s2.stats.total == s.stats.total && s2.stats.perUser == s.stats.perUser
      && s2.stats.likesByUser == s.stats.likesByUser[userId := LikedBy(s.stats.likesByUser, userId)]
  {
    ToggleTwiceGallery(s, generationId, userId, k);
    ToggleTwiceLikes(s, generationId, userId);
  }

  /** Updating the settings keeps the store's invariant. */
  lemma SettingsUpdatedInvariant(s: State, patch: SettingsPatch)
    requires Invariant(s)
    ensures Invariant(s.(settings := Merged(s.settings, patch)))
  {
  }

  /** The store of src/lib/store.ts, updated in place by the route handlers. */
  class Store {
    var settings: Settings
    var gallery: seq<Generation>
    var logs: seq<GenerationLog>
    var stats: Stats
    /** `makePlaceholderImage`, which is not part of this model. */
    const render: (string, string, int) -> string

    function Snapshot(): State
      reads this
    {
      State(settings, gallery, logs, stats)
    }

    predicate Valid()
      reads this
    {
      Invariant(Snapshot())
    }

    /** `buildStore`: the default settings, the seed gallery, no logs, no users. */
    constructor (seed: seq<Generation>, render: (string, string, int) -> string)
      requires SeedGallery(seed)
      ensures Snapshot() == Initial(seed) && this.render == render
      ensures Valid()
    {
      settings := DefaultSettings;
      gallery := seed;
      logs := [];
      stats := Stats(|seed|, map[], map[]);
      this.render := render;
      new;
      InitialInvariant(seed);
    }

    /** `registerGeneration`: prepends the record and its log entry, counts it globally and for the user. */
    method RegisterGeneration(
      userId: string, inputUrl: string, prompt: Option<string>, message: Option<string>,
      now: string, genId: string, logId: string) returns (generation: Generation)
      requires Valid()
      requires genId !in Ids(gallery) && logId !in LogIds(logs)
      modifies this
      ensures Valid()
      ensures (Snapshot(), generation) ==
        Registered(old(Snapshot()), userId, inputUrl, prompt, message, now, genId, logId, render)
    {
      ghost var before := Snapshot();
      var today := DayKey(now);
      var record := RecordOf(stats.perUser, userId, today);
      var promptUsed := if Truthy(prompt) then prompt else settings.promptTemplate;
      var outputUrl := if inputUrl != "" then inputUrl else render(PlaceholderTitle, PlaceholderSubtitle, |gallery|);
      generation := Generation(genId, inputUrl, outputUrl, now, promptUsed, Completed, true, 0, message);
      gallery := [generation] + gallery;
      stats := stats.(total := stats.total + 1);
      var updated := Bumped(record, today);
      stats := stats.(perUser := stats.perUser[userId := updated]);
      logs := [GenerationLog(logId, Some(generation.id), Completed, LogMessage, now, Some(userId))] + logs;
      ghost var expected := Registered(before, userId, inputUrl, prompt, message, now, genId, logId, render);
      assert (Snapshot(), generation) == expected;
      RegisteredInvariant(before, userId, inputUrl, prompt, message, now, genId, logId, render);
    }

    /** `toggleLike`: flips the user's like of the generation and moves its count by one, floored at 0. */
    method ToggleLike(generationId: string, userId: string) returns (item: Option<Generation>)
      requires Valid()
      modifies this
      ensures Valid()
      ensures (Snapshot(), item) == LikeToggled(old(Snapshot()), generationId, userId)
    {
      ghost var before := Snapshot();
      var found := IndexOf(Ids(gallery), generationId);
      if found.None? {
        LikeToggledInvariant(before, generationId, userId);
        return None;
      }
      var k := found.value;
      var liked := LikedBy(stats.likesByUser, userId);
      var g := gallery[k];
      if generationId in liked {
        g := g.(likes := Max(0, g.likes - 1));
      } else {
        g := g.(likes := g.likes + 1);
      }
      gallery := gallery[k := g];
      stats := stats.(likesByUser := stats.likesByUser[userId := Flipped(liked, generationId)]);
      item := Some(g);
      assert (Snapshot(), item) == LikeToggled(before, generationId, userId);
      LikeToggledInvariant(before, generationId, userId);
    }

    /** `updateSettings`: merges the patch into the settings and returns them. */
    method UpdateSettings(patch: SettingsPatch) returns (updated: Settings)
      requires Valid()
      modifies this
      ensures Valid()
      ensures Snapshot() == old(Snapshot()).(settings := Merged(old(settings), patch))
      ensures updated == settings
    {
      settings := Merged(settings, patch);
      updated := settings;
    }
  }
}
