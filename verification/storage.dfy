/** The second in-memory store (src/lib/storage.ts), read by the gallery and like routes:
    generations created as `processing` and completed or failed later, users with a daily and a
    lifetime counter and the list of generations they like, and an unclamped settings object. */
module Storage {
  import opened Common

  datatype Status = Pending | Processing | Completed | Error

  datatype Generation = Generation(
    id: string,
    userId: string,
    inputUrl: string,
    outputUrl: string,
    promptUsed: string,
    status: Status,
    safe: bool,
    likes: int,
    createdAt: string,
    message: Option<string>)

  datatype User = User(
    id: string,
    dailyCount: int,
    lastGenerationDate: string,
    totalGenerations: int,
    likedGenerations: seq<string>)

  datatype Settings = Settings(
    promptTemplate: string,
    perUserDailyQuota: int,
    globalLifetimeQuota: int,
    noticeMessage: string)

  /** A `Partial<Settings>`: None for a key that is left out. */
  datatype SettingsUpdate = SettingsUpdate(
    promptTemplate: Option<string>,
    perUserDailyQuota: Option<int>,
    globalLifetimeQuota: Option<int>,
    noticeMessage: Option<string>)

  /** The value of the module-level `store` object. */
  datatype State = State(generations: seq<Generation>, users: map<string, User>, settings: Settings)

  const DefaultSettings := Settings(
    "Take the uploaded miniature car photo, cleanly cut out the car, render it in hyper-realistic detail, then stylize into manga/anime with crisp lines and subtle halftones. Preserve lighting and reflections.",
    1,
    50,
    "生成コンテンツは全ユーザーに公開されます。")

  const Initial := State([], map[], DefaultSettings)

  /** The rejection texts, which quote the configured quota. */
  function GlobalLimitReason(quota: int): string
  {
    "全体の生成上限（" + IntToString(quota) + "件）に達しました。"
  }

  function DailyLimitReason(quota: int): string
  {
    "本日はこれ以上生成できません（1日" + IntToString(quota) + "回）。"
  }

  function Ids(generations: seq<Generation>): (ids: seq<string>)
    ensures |ids| == |generations|
    ensures forall i :: 0 <= i < |generations| ==> ids[i] == generations[i].id
  {
    seq(|generations|, i requires 0 <= i < |generations| => generations[i].id)
  }

  /** The users whose list of liked generations holds `id`. */
  function Likers(users: map<string, User>, id: string): set<string>
  {
    set u | u in users && id in users[u].likedGenerations
  }

  /** What every reachable store satisfies: unique generation ids, `safe` exactly on completed
      records, users filed under their own id, liked lists without duplicates that name only
      existing generations, and at least as many likes on a generation as users who like it. */
  predicate Invariant(s: State)
  {
    && Distinct(Ids(s.generations))
    && (forall i :: 0 <= i < |s.generations| ==> (s.generations[i].safe <==> s.generations[i].status == Completed))
    && (forall u :: u in s.users ==> s.users[u].id == u && Distinct(s.users[u].likedGenerations))
    && (forall u, x :: u in s.users && x in s.users[u].likedGenerations ==> x in Ids(s.generations))
    && (forall i :: 0 <= i < |s.generations| ==> s.generations[i].likes >= |Likers(s.users, s.generations[i].id)|)
  }

  /** `saveGeneration` (src/lib/storage.ts:45-69): a new `processing` record in front of the list. */
  function Saved(
    s: State, userId: string, inputUrl: string, prompt: Option<string>, message: Option<string>,
    now: string, id: string): (r: (State, Generation))
    ensures r.1.id == id && r.1.userId == userId && r.1.inputUrl == inputUrl && r.1.message == message
    ensures r.1.status == Processing && !r.1.safe && r.1.outputUrl == "" && r.1.likes == 0 && r.1.createdAt == now
    ensures r.1.promptUsed == if Truthy(prompt) then prompt.value else s.settings.promptTemplate
    ensures |r.0.generations| == |s.generations| + 1 && r.0.generations[0] == r.1 && r.0.generations[1..] == s.generations
    ensures r.0.users == s.users && r.0.settings == s.settings
  {
    var promptUsed := if Truthy(prompt) then prompt.value else s.settings.promptTemplate;
    var g := Generation(id, userId, inputUrl, "", promptUsed, Processing, false, 0, now, message);
    (s.(generations := [g] + s.generations), g)
  }

  /** `updateGenerationOutput` (src/lib/storage.ts:71-84): records the output of the first record with
      that id; `safe` becomes true exactly when the new status is `completed`. */
  function OutputUpdated(s: State, id: string, outputUrl: string, status: Status): (r: (State, Option<Generation>))
    requires status == Completed || status == Error
    ensures r.1.None? <==> id !in Ids(s.generations)
    ensures r.1.None? ==> r.0 == s
    ensures r.1.Some? ==>
      var k := IndexOf(Ids(s.generations), id).value;
      && r.1.value == s.generations[k].(outputUrl := outputUrl, status := status, safe := status == Completed)
      && r.0.generations == s.generations[k := r.1.value]
      && r.0.users == s.users && r.0.settings == s.settings
  {
    match IndexOf(Ids(s.generations), id)
    case None => (s, None)
    case Some(k) =>
      var g := s.generations[k].(outputUrl := outputUrl, status := status, safe := status == Completed);
      (s.(generations := s.generations[k := g]), Some(g))
  }

  /** A record the public gallery may show. */
  predicate Visible(g: Generation)
  {
    g.status == Completed && g.safe
  }

  /** `getGallery(limit)` (src/lib/storage.ts:86-90): the first `limit` visible records in stored order
      (the gallery route asks for 60). */
  function GetGallery(s: State, limit: int): (r: seq<Generation>)
    ensures forall i :: 0 <= i < |r| ==> Visible(r[i])
    ensures r <= Filter(s.generations, Visible)
    ensures 0 <= limit ==> |r| == Min(limit, |Filter(s.generations, Visible)|)
  {
    Take(Filter(s.generations, Visible), limit)
  }

  /** `list.filter(id => id !== generationId)`. */
  function Unliked(list: seq<string>, generationId: string): (r: seq<string>)
    ensures generationId !in r
    ensures forall x :: x != generationId ==> (x in r <==> x in list)
  {
    Filter(list, x => x != generationId)
  }

  /** The user as `toggleLike` finds or creates it. */
  function UserOrNew(users: map<string, User>, userId: string): User
  {
    if userId in users then users[userId] else User(userId, 0, "", 0, [])
  }

  /** A liked list after one toggle of `id`: every copy removed when present, appended otherwise. */
  function FlippedList(list: seq<string>, id: string): (r: seq<string>)
    ensures id in r <==> id !in list
    ensures forall x :: x != id ==> (x in r <==> x in list)
  {
    if id in list then Unliked(list, id) else list + [id]
  }

  /** `toggleLike` (src/lib/storage.ts:92-119): for an existing generation, the user is created if
      missing, then its like is flipped and the count moves by one, floored at 0. */
  function LikeToggled(s: State, generationId: string, userId: string): (State, Option<Generation>)
  {
    match IndexOf(Ids(s.generations), generationId)
    case None => (s, None)
    case Some(k) =>
      var user := UserOrNew(s.users, userId);
      var g := s.generations[k];
      var already := generationId in user.likedGenerations;
      var g' := g.(likes := if already then Max(0, g.likes - 1) else g.likes + 1);
      var liked := FlippedList(user.likedGenerations, generationId);
      (s.(generations := s.generations[k := g'], users := s.users[userId := user.(likedGenerations := liked)]), Some(g'))
  }

  /** What `toggleLike` does: nothing when no generation has that id; otherwise the user is on record
      afterwards, the first record with that id has its count moved by one (down, floored at 0, when the
      user already liked it; up otherwise), the user's liked list flips on that id alone, and nothing else changes. */
  lemma LikeToggledEffect(s: State, generationId: string, userId: string)
    ensures var r := LikeToggled(s, generationId, userId);
      && (r.1.None? <==> generationId !in Ids(s.generations))
      && (r.1.None? ==> r.0 == s)
      && (r.1.Some? ==>
            var k := IndexOf(Ids(s.generations), generationId).value;
            var user := UserOrNew(s.users, userId);
            var was := generationId in user.likedGenerations;
            && r.1.value == s.generations[k].(likes := if was then Max(0, s.generations[k].likes - 1) else s.generations[k].likes + 1)
            && r.0.generations == s.generations[k := r.1.value]
            && userId in r.0.users
            && r.0.users == s.users[userId := user.(likedGenerations := r.0.users[userId].likedGenerations)]
            && (generationId in r.0.users[userId].likedGenerations <==> !was)
            && (forall x :: x != generationId ==>
                  (x in r.0.users[userId].likedGenerations <==> x in user.likedGenerations))
            && r.0.settings == s.settings)
  {
  }

  /** `checkRateLimit` (src/lib/storage.ts:121-136): every stored record counts against the global quota,
      whatever its status; a user is refused only when known, already counted today and at the quota. */
  function CheckRateLimit(s: State, userId: string, now: string): (r: RateResult)
    ensures |s.generations| >= s.settings.globalLifetimeQuota ==>
      r == Denied(GlobalLimitReason(s.settings.globalLifetimeQuota))
    ensures r.Allowed? <==>
      && |s.generations| < s.settings.globalLifetimeQuota
      && !(userId in s.users && s.users[userId].lastGenerationDate == DayKey(now)
           && s.users[userId].dailyCount >= s.settings.perUserDailyQuota)
    ensures r.Denied? && |s.generations| < s.settings.globalLifetimeQuota ==>
      r == Denied(DailyLimitReason(s.settings.perUserDailyQuota))
  {
    var today := DayKey(now);
    if |s.generations| >= s.settings.globalLifetimeQuota then
      Denied(GlobalLimitReason(s.settings.globalLifetimeQuota))
    else if userId in s.users && s.users[userId].lastGenerationDate == today
            && s.users[userId].dailyCount >= s.settings.perUserDailyQuota then
      Denied(DailyLimitReason(s.settings.perUserDailyQuota))
    else
      Allowed
  }

  /** `updateUserGenerationCount` (src/lib/storage.ts:138-155): one more generation for the user today. */
  function CountUpdated(s: State, userId: string, now: string): (r: State)
    ensures userId in r.users
    ensures r.users == s.users[userId := r.users[userId]]
    ensures r.users[userId].id == UserOrNew(s.users, userId).id
    ensures r.users[userId].lastGenerationDate == DayKey(now)
    ensures r.users[userId].dailyCount ==
      if userId in s.users && s.users[userId].lastGenerationDate == DayKey(now) then s.users[userId].dailyCount + 1 else 1
    ensures r.users[userId].totalGenerations == (if userId in s.users then s.users[userId].totalGenerations else 0) + 1
    ensures r.users[userId].likedGenerations == (if userId in s.users then s.users[userId].likedGenerations else [])
    ensures r.generations == s.generations && r.settings == s.settings
  {
    var today := DayKey(now);
    if userId in s.users then
      var u := s.users[userId];
      var u' := u.(dailyCount := if u.lastGenerationDate == today then u.dailyCount + 1 else 1,
                   lastGenerationDate := today,
                   totalGenerations := u.totalGenerations + 1);
      s.(users := s.users[userId := u'])
    else
      s.(users := s.users[userId := User(userId, 1, today, 1, [])])
  }

  /** `updateSettings` (src/lib/storage.ts:161-164): a plain merge, with no clamping of the quotas. */
  function SettingsMerged(settings: Settings, update: SettingsUpdate): (r: Settings)
    ensures update.perUserDailyQuota.Some? ==> r.perUserDailyQuota == update.perUserDailyQuota.value
    ensures update.perUserDailyQuota.None? ==> r.perUserDailyQuota == settings.perUserDailyQuota
    ensures update.globalLifetimeQuota.Some? ==> r.globalLifetimeQuota == update.globalLifetimeQuota.value
    ensures update.globalLifetimeQuota.None? ==> r.globalLifetimeQuota == settings.globalLifetimeQuota
    ensures update.promptTemplate.Some? ==> r.promptTemplate == update.promptTemplate.value
    ensures update.promptTemplate.None? ==> r.promptTemplate == settings.promptTemplate
    ensures update.noticeMessage.Some? ==> r.noticeMessage == update.noticeMessage.value
    ensures update.noticeMessage.None? ==> r.noticeMessage == settings.noticeMessage
  {
    Settings(
      match update.promptTemplate case Some(v) => v case None => settings.promptTemplate,
      match update.perUserDailyQuota case Some(v) => v case None => settings.perUserDailyQuota,
      match update.globalLifetimeQuota case Some(v) => v case None => settings.globalLifetimeQuota,
      match update.noticeMessage case Some(v) => v case None => settings.noticeMessage)
  }

  /** Replacing one user changes only that user's membership in each likers set. */
  lemma LikersAfterUpdate(users: map<string, User>, userId: string, user: User, id: string)
    ensures Likers(users[userId := user], id) ==
      if id in user.likedGenerations then Likers(users, id) + {userId} else Likers(users, id) - {userId}
  {
    var after := Likers(users[userId := user], id);
    var expected := if id in user.likedGenerations then Likers(users, id) + {userId} else Likers(users, id) - {userId};
    forall u ensures u in after <==> u in expected {
      if u == userId {
        assert u in after <==> id in user.likedGenerations;
      } else {
        assert u in after <==> u in Likers(users, id);
      }
    }
  }

  lemma InitialInvariant()
    ensures Invariant(Initial)
  {
  }

  /** Prepending an unliked record under a fresh id, `safe` exactly when completed, keeps the invariant. */
  lemma PrependInvariant(s: State, g: Generation)
    requires Invariant(s)
    requires g.id !in Ids(s.generations)
    requires g.likes >= 0 && (g.safe <==> g.status == Completed)
    ensures Invariant(s.(generations := [g] + s.generations))
  {
    var gens := [g] + s.generations;
    assert Ids(gens) == [g.id] + Ids(s.generations);
    assert Likers(s.users, g.id) == {} by {
      forall u | u in s.users ensures g.id !in s.users[u].likedGenerations {}
    }
    forall i | 0 < i < |gens|
      ensures gens[i].likes >= |Likers(s.users, gens[i].id)| && (gens[i].safe <==> gens[i].status == Completed)
    {
      assert gens[i] == s.generations[i - 1];
    }
  }

  /** Saving under a fresh id keeps the invariant: the new record is invisible and nobody likes it. */
  lemma SavedInvariant(
    s: State, userId: string, inputUrl: string, prompt: Option<string>, message: Option<string>, now: string, id: string)
    requires Invariant(s)
    requires id !in Ids(s.generations)
    ensures Invariant(Saved(s, userId, inputUrl, prompt, message, now, id).0)
  {
    var r := Saved(s, userId, inputUrl, prompt, message, now, id);
    assert r.0 == s.(generations := [r.1] + s.generations);
    PrependInvariant(s, r.1);
  }

  /** Recording an output keeps the invariant. */
  lemma OutputUpdatedInvariant(s: State, id: string, outputUrl: string, status: Status)
    requires Invariant(s)
    requires status == Completed || status == Error
    ensures Invariant(OutputUpdated(s, id, outputUrl, status).0)
  {
    var s' := OutputUpdated(s, id, outputUrl, status).0;
    assert Ids(s'.generations) == Ids(s.generations);
  }

  /** Replacing a user by one that agrees with it on `id` leaves the likers of `id` as they were. */
  lemma LikersUnchanged(users: map<string, User>, userId: string, user': User, id: string)
    requires id in user'.likedGenerations <==> id in UserOrNew(users, userId).likedGenerations
    ensures Likers(users[userId := user'], id) == Likers(users, id)
  {
    LikersAfterUpdate(users, userId, user', id);
    assert id in user'.likedGenerations ==> userId in Likers(users, id);
  }

  /** One like step keeps the invariant: generation `k` gets a count that covers its likers, and
      user `userId` gets a list without duplicates that differs from its old one at most on generation `k`. */
  lemma LikeStepInvariant(s: State, k: nat, userId: string, user': User, likes': int)
    requires Invariant(s)
    requires k < |s.generations|
    requires user'.id == userId && Distinct(user'.likedGenerations)
    requires forall x :: x != s.generations[k].id ==>
      (x in user'.likedGenerations <==> x in UserOrNew(s.users, userId).likedGenerations)
    requires likes' >= |Likers(s.users[userId := user'], s.generations[k].id)|
    ensures Invariant(State(s.generations[k := s.generations[k].(likes := likes')], s.users[userId := user'], s.settings))
  {
    var gens := s.generations[k := s.generations[k].(likes := likes')];
    var users := s.users[userId := user'];
    var ids := Ids(s.generations);
    assert Ids(gens) == ids;
    assert forall x :: x in user'.likedGenerations ==> x in ids by {
      forall x | x in user'.likedGenerations ensures x in ids {
        if x != s.generations[k].id {
          assert userId in s.users;
        }
      }
    }
    assert forall i :: 0 <= i < |gens| ==> gens[i].likes >= |Likers(users, gens[i].id)| by {
      forall i | 0 <= i < |gens| && i != k
        ensures gens[i].likes >= |Likers(users, gens[i].id)|
      {
        assert s.generations[i].id != s.generations[k].id;
        LikersUnchanged(s.users, userId, user', s.generations[i].id);
      }
    }
  }

  /** Flipping one id in a liked list without duplicates gives a list without duplicates. */
  lemma FlippedListDistinct(list: seq<string>, generationId: string)
    requires Distinct(list)
    ensures Distinct(FlippedList(list, generationId))
  {
    if generationId in list {
      FilterDistinct(list, x => x != generationId);
    }
  }

  /** A count moved by one in the direction of the flip still covers the likers of the generation. */
  lemma ToggledLikesBound(users: map<string, User>, userId: string, user': User, id: string, likes: int)
    requires likes >= |Likers(users, id)|
    requires id in user'.likedGenerations <==> id !in UserOrNew(users, userId).likedGenerations
    ensures (if id in UserOrNew(users, userId).likedGenerations then Max(0, likes - 1) else likes + 1)
      >= |Likers(users[userId := user'], id)|
  {
    LikersAfterUpdate(users, userId, user', id);
    assert id in UserOrNew(users, userId).likedGenerations <==> userId in Likers(users, id);
  }

  /** Toggling a like keeps the invariant: liked lists stay free of duplicates and like counts
      stay at least the number of likers, so they never become negative. */
  lemma LikeToggledInvariant(s: State, generationId: string, userId: string)
    requires Invariant(s)
    ensures Invariant(LikeToggled(s, generationId, userId).0)
  {
    match IndexOf(Ids(s.generations), generationId)
    case None =>
    case Some(k) =>
      var user := UserOrNew(s.users, userId);
      var likes := s.generations[k].likes;
      var already := generationId in user.likedGenerations;
      var liked := FlippedList(user.likedGenerations, generationId);
      var likes' := if already then Max(0, likes - 1) else likes + 1;
      var user' := user.(likedGenerations := liked);
      assert LikeToggled(s, generationId, userId).0 ==
        State(s.generations[k := s.generations[k].(likes := likes')], s.users[userId := user'], s.settings);
      FlippedListDistinct(user.likedGenerations, generationId);
      ToggledLikesBound(s.users, userId, user', generationId, likes);
      LikeStepInvariant(s, k, userId, user', likes');
  }

  /** Counting a generation for a user keeps the invariant. */
  lemma CountUpdatedInvariant(s: State, userId: string, now: string)
    requires Invariant(s)
    ensures Invariant(CountUpdated(s, userId, now))
  {
    var s' := CountUpdated(s, userId, now);
    forall i | 0 <= i < |s.generations|
      ensures s.generations[i].likes >= |Likers(s'.users, s.generations[i].id)|
    {
      var id := s.generations[i].id;
      LikersAfterUpdate(s.users, userId, s'.users[userId], id);
      assert Likers(s'.users, id) == Likers(s.users, id);
    }
  }

  /** In a store that keeps the invariant no like count is negative, and a generation somebody likes
      has a positive one. */
  lemma LikesCoverLikers(s: State, i: int, userId: string)
    requires Invariant(s)
    requires 0 <= i < |s.generations|
    ensures s.generations[i].likes >=
      if s.generations[i].id in UserOrNew(s.users, userId).likedGenerations then 1 else 0
  {
    if s.generations[i].id in UserOrNew(s.users, userId).likedGenerations {
      assert userId in Likers(s.users, s.generations[i].id);
    }
  }

  /** One toggle on the generation at index `k`: its count moves by one, floored at 0. */
  lemma ToggleCountShape(s: State, generationId: string, userId: string, k: nat)
    requires IndexOf(Ids(s.generations), generationId) == Some(k)
    ensures var was := generationId in UserOrNew(s.users, userId).likedGenerations;
      LikeToggled(s, generationId, userId).0.generations ==
        s.generations[k := s.generations[k].(likes := if was then Max(0, s.generations[k].likes - 1) else s.generations[k].likes + 1)]
  {
  }

  /** One toggle on an existing generation: the user is on record with a liked list flipped on that id,
      and the ids of the generations and the settings stay as they were. */
  lemma ToggleUserShape(s: State, generationId: string, userId: string)
    requires generationId in Ids(s.generations)
    ensures var user := UserOrNew(s.users, userId);
      LikeToggled(s, generationId, userId).0.users ==
        s.users[userId := user.(likedGenerations := FlippedList(user.likedGenerations, generationId))]
    ensures Ids(LikeToggled(s, generationId, userId).0.generations) == Ids(s.generations)
    ensures LikeToggled(s, generationId, userId).0.settings == s.settings
  {
  }

  /** The second of two toggles moves the count back. */
  lemma ToggleTwiceCounts(s: State, generationId: string, userId: string, k: nat)
    requires IndexOf(Ids(s.generations), generationId) == Some(k)
    requires s.generations[k].likes >= if generationId in UserOrNew(s.users, userId).likedGenerations then 1 else 0
    ensures LikeToggled(LikeToggled(s, generationId, userId).0, generationId, userId).0.generations == s.generations
  {
    ToggleCountShape(s, generationId, userId, k);
    ToggleUserShape(s, generationId, userId);
    var s1 := LikeToggled(s, generationId, userId).0;
    ToggleCountShape(s1, generationId, userId, k);
    assert LikeToggled(s1, generationId, userId).0.generations[k] == s.generations[k];
  }

  /** The second of two toggles flips the user's like back: the same generations are liked, and
      the user stays on record. */
  lemma ToggleTwiceUser(s: State, generationId: string, userId: string)
    requires generationId in Ids(s.generations)
    ensures var s2 := LikeToggled(LikeToggled(s, generationId, userId).0, generationId, userId).0;
      var user := UserOrNew(s.users, userId);
      && s2.settings == s.settings
      && userId in s2.users
      && s2.users == s.users[userId := user.(likedGenerations := s2.users[userId].likedGenerations)]
      && (forall x :: x in s2.users[userId].likedGenerations <==> x in user.likedGenerations)
  {
    var user := UserOrNew(s.users, userId);
    var list1 := FlippedList(user.likedGenerations, generationId);
    ToggleUserShape(s, generationId, userId);
    var s1 := LikeToggled(s, generationId, userId).0;
    ToggleUserShape(s1, generationId, userId);
    assert UserOrNew(s1.users, userId) == user.(likedGenerations := list1);
    var list2 := FlippedList(list1, generationId);
    assert s.users[userId := user.(likedGenerations := list1)][userId := user.(likedGenerations := list2)] ==
      s.users[userId := user.(likedGenerations := list2)];
  }

  /** Two consecutive toggles by the same user on the generation at index `k` (the first with that id)
      restore every like count and which generations that user likes (the liked list may come back in
      another order), and leave the user on record even if the first toggle created it. The count must
      be at least 0, and positive when the user already likes the generation, as `LikesCoverLikers`
      shows it is in every store that keeps the invariant. */
  lemma LikeToggledTwice(s: State, generationId: string, userId: string, k: nat)
    requires IndexOf(Ids(s.generations), generationId) == Some(k)
    requires s.generations[k].likes >= if generationId in UserOrNew(s.users, userId).likedGenerations then 1 else 0
    ensures var s2 := LikeToggled(LikeToggled(s, generationId, userId).0, generationId, userId).0;
      var user := UserOrNew(s.users, userId);
      && s2.generations == s.generations
      && s2.settings == s.settings
      && userId in s2.users
      && s2.users == s.users[userId := user.(likedGenerations := s2.users[userId].likedGenerations)]
      && (forall x :: x in s2.users[userId].likedGenerations <==> x in user.likedGenerations)
  {
    ToggleTwiceCounts(s, generationId, userId, k);
    ToggleTwiceUser(s, generationId, userId);
  }

  /** A saved record stays out of the public gallery until its output is recorded as completed. */
  lemma {:induction false} SavedNotInGallery(
    s: State, userId: string, inputUrl: string, prompt: Option<string>, message: Option<string>, now: string, id: string)
    ensures Filter(Saved(s, userId, inputUrl, prompt, message, now, id).0.generations, Visible) == Filter(s.generations, Visible)
  {
    var r := Saved(s, userId, inputUrl, prompt, message, now, id);
    FilterConcat([r.1], s.generations, Visible);
    assert r.0.generations == [r.1] + s.generations;
    assert Filter([r.1], Visible) == [];
  }

  /** A user who never generated is never refused by the daily check, whatever the daily quota;
      only the global quota can refuse them. */
  lemma UnknownUserOnlyGloballyLimited(s: State, userId: string, now: string)
    requires userId !in s.users
    ensures CheckRateLimit(s, userId, now).Allowed? <==> |s.generations| < s.settings.globalLifetimeQuota
  {
  }

  /** The settings update stores any quota it is given, including zero or a negative number. */
  lemma SettingsMergedDoesNotClamp(settings: Settings, q: int)
    ensures SettingsMerged(settings, SettingsUpdate(None, Some(q), None, None)).perUserDailyQuota == q
  {
  }

  /** The store of src/lib/storage.ts, updated in place by its exported functions. */
  class Store {
    var generations: seq<Generation>
    var users: map<string, User>
    var settings: Settings

    function Snapshot(): State
      reads this
    {
      State(generations, users, settings)
    }

    predicate Valid()
      reads this
    {
      Invariant(Snapshot())
    }

    /** The module-level object literal: no generations, no users, the default settings. */
    constructor ()
      ensures Snapshot() == Initial
      ensures Valid()
    {
      generations := [];
      users := map[];
      settings := DefaultSettings;
    }

    /** `saveGeneration`, with `id` the fresh id `nanoid` draws and `now` the ISO timestamp. */
    method SaveGeneration(
      userId: string, inputUrl: string, prompt: Option<string>, message: Option<string>, now: string, id: string)
      returns (generation: Generation)
      requires Valid()
      requires id !in Ids(generations)
      modifies this
      ensures Valid()
      ensures (Snapshot(), generation) == Saved(old(Snapshot()), userId, inputUrl, prompt, message, now, id)
    {
      ghost var before := Snapshot();
      var promptUsed := if Truthy(prompt) then prompt.value else settings.promptTemplate;
      generation := Generation(id, userId, inputUrl, "", promptUsed, Processing, false, 0, now, message);
      generations := [generation] + generations;
      SavedInvariant(before, userId, inputUrl, prompt, message, now, id);
    }

    /** `updateGenerationOutput`. */
    method UpdateGenerationOutput(id: string, outputUrl: string, status: Status) returns (updated: Option<Generation>)
      requires Valid()
      requires status == Completed || status == Error
      modifies this
      ensures Valid()
      ensures (Snapshot(), updated) == OutputUpdated(old(Snapshot()), id, outputUrl, status)
    {
      OutputUpdatedInvariant(Snapshot(), id, outputUrl, status);
      var found := IndexOf(Ids(generations), id);
      if found.None? {
        return None;
      }
      var k := found.value;
      var g := generations[k].(outputUrl := outputUrl, status := status, safe := status == Completed);
      generations := generations[k := g];
      updated := Some(g);
    }

    /** `toggleLike`. */
    method ToggleLike(generationId: string, userId: string) returns (updated: Option<Generation>)
      requires Valid()
      modifies this
      ensures Valid()
      ensures (Snapshot(), updated) == LikeToggled(old(Snapshot()), generationId, userId)
    {
      ghost var before := Snapshot();
      var found := IndexOf(Ids(generations), generationId);
      if found.None? {
        LikeToggledInvariant(before, generationId, userId);
        return None;
      }
      var k := found.value;
      var user := UserOrNew(users, userId);
      users := users[userId := user];
      var g := generations[k];
      if generationId in user.likedGenerations {
        g := g.(likes := Max(0, g.likes - 1));
      } else {
        g := g.(likes := g.likes + 1);
      }
      user := user.(likedGenerations := FlippedList(user.likedGenerations, generationId));
      generations := generations[k := g];
      users := users[userId := user];
      updated := Some(g);
      assert Snapshot() == LikeToggled(before, generationId, userId).0;
      assert updated == LikeToggled(before, generationId, userId).1;
      LikeToggledInvariant(before, generationId, userId);
    }

    /** `updateUserGenerationCount`. */
    method UpdateUserGenerationCount(userId: string, now: string)
      requires Valid()
      modifies this
      ensures Valid()
      ensures Snapshot() == CountUpdated(old(Snapshot()), userId, now)
    {
      ghost var before := Snapshot();
      var today := DayKey(now);
      if userId in users {
        var user := users[userId];
        user := user.(dailyCount := if user.lastGenerationDate == today then user.dailyCount + 1 else 1);
        user := user.(lastGenerationDate := today);
        user := user.(totalGenerations := user.totalGenerations + 1);
        users := users[userId := user];
      } else {
        users := users[userId := User(userId, 1, today, 1, [])];
      }
      CountUpdatedInvariant(before, userId, now);
    }

    /** `updateSettings`. */
    method UpdateSettings(update: SettingsUpdate) returns (updated: Settings)
      requires Valid()
      modifies this
      ensures Valid()
      ensures Snapshot() == old(Snapshot()).(settings := SettingsMerged(old(settings), update))
      ensures updated == settings
    {
      settings := SettingsMerged(settings, update);
      updated := settings;
    }
  }
}
