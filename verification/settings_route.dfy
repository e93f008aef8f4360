/** `GET` and `POST /api/settings` (src/app/api/settings/route.ts) over the store of src/lib/store.ts. */
module SettingsRoute {
  import opened Common
  import opened LocalStore

  /** The parsed JSON body: the four keys the route reads (None when the key is missing or `null`)
      and every other key, which the route never looks at. */
  datatype Body = Body(
    promptTemplate: Option<string>,
    perUserDailyQuota: Option<int>,
    globalLifetimeQuota: Option<int>,
    noticeMessage: Option<string>,
    others: map<string, string>)

  datatype Response = BadRequest(error: string) | Ok(settings: Settings)

  const EmptyBody := "設定内容が空です。"

  /** The object the route passes to `updateSettings`: all four keys, each present even when the
      body lacks it (then with the value `undefined`). */
  function Forwarded(b: Body): (patch: SettingsPatch)
    ensures patch.promptTemplate.Present? && patch.promptTemplate.value == b.promptTemplate
    ensures patch.perUserDailyQuota.Present? && patch.perUserDailyQuota.value == b.perUserDailyQuota
    ensures patch.globalLifetimeQuota.Present? && patch.globalLifetimeQuota.value == b.globalLifetimeQuota
    ensures patch.noticeMessage.Present? && patch.noticeMessage.value == b.noticeMessage
  {
    SettingsPatch(Present(b.promptTemplate), Present(b.perUserDailyQuota),
                  Present(b.globalLifetimeQuota), Present(b.noticeMessage))
  }

  /** `GET` (src/app/api/settings/route.ts:5-7): the stored settings, whose quotas are at least 1. */
  function Get(s: State): (r: Response)
    ensures r.Ok? && r.settings == s.settings
    ensures Invariant(s) ==> r.settings.perUserDailyQuota >= 1 && r.settings.globalLifetimeQuota >= 1
  {
    Ok(s.settings)
  }

  /** `POST` (src/app/api/settings/route.ts:9-24): the settings afterwards and the response. */
  function Respond(settings: Settings, body: Option<Body>): (r: (Settings, Response))
    ensures body.None? ==> r == (settings, BadRequest(EmptyBody))
    ensures body.Some? ==> r.0 == Merged(settings, Forwarded(body.value)) && r.1 == Ok(r.0)
  {
    match body
    case None => (settings, BadRequest(EmptyBody))
    case Some(b) =>
      var updated := Merged(settings, Forwarded(b));
      (updated, Ok(updated))
  }

  /** The handler: a body that does not parse is refused; otherwise the four fields go to `updateSettings`. */
  method Post(store: Store, body: Option<Body>) returns (response: Response)
    requires store.Valid()
    modifies store
    ensures store.Valid()
    ensures store.Snapshot() == old(store.Snapshot()).(settings := store.settings)
    ensures (store.settings, response) == Respond(old(store.settings), body)
  {
    if body.None? {
      return BadRequest(EmptyBody);
    }
    var updated := store.UpdateSettings(Forwarded(body.value));
    response := Ok(updated);
  }

  /** After any `POST` both quotas are at least 1, and the response carries exactly the stored settings. */
  lemma PostQuotasPositive(settings: Settings, body: Option<Body>)
    requires settings.perUserDailyQuota >= 1 && settings.globalLifetimeQuota >= 1
    ensures var r := Respond(settings, body);
      && r.0.perUserDailyQuota >= 1 && r.0.globalLifetimeQuota >= 1
      && (r.1.Ok? ==> r.1.settings == r.0)
  {
  }

  /** A quota the body gives is stored clamped to at least 1; a quota the body lacks keeps its value. */
  lemma PostQuotaFields(settings: Settings, b: Body)
    requires settings.perUserDailyQuota >= 1 && settings.globalLifetimeQuota >= 1
    ensures var s := Respond(settings, Some(b)).0;
      && s.perUserDailyQuota == (match b.perUserDailyQuota case Some(q) => Max(1, q) case None => settings.perUserDailyQuota)
      && s.globalLifetimeQuota == (match b.globalLifetimeQuota case Some(q) => Max(1, q) case None => settings.globalLifetimeQuota)
  {
  }

  /** A text field the body lacks is still forwarded, as `undefined`, and replaces the stored text. */
  lemma PostTextFields(settings: Settings, b: Body)
    ensures var s := Respond(settings, Some(b)).0;
      && s.promptTemplate == b.promptTemplate
      && s.noticeMessage == b.noticeMessage
  {
  }

  /** Keys other than the four settings fields have no effect. */
  lemma PostIgnoresOtherKeys(settings: Settings, b: Body, others: map<string, string>)
    ensures Respond(settings, Some(b)) == Respond(settings, Some(b.(others := others)))
  {
  }
}
