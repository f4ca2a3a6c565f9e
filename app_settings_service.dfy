/**
 * The owner's settings service: each write reads the row first, writes
 * through the repository and then appends an audit row recording the row
 * before and after. The write and its audit row are separate statements,
 * not one transaction.
 */
module AppSettingsService {
  import opened Wrappers
  import opened Db
  import opened Errors
  import opened AppSettingsRepo
  import AuditService

  const Entity := "app_settings"

  /** `get()`: the singleton row, or nothing. */
  function Get(settings: Option<Settings>): (r: Option<Settings>)
    requires Singleton(settings)
    ensures r == settings
  {
    Find(settings)
  }

  /**
   * `createIfEmpty(actor, dto)`: an existing row is returned as it is,
   * with no write and no audit row; otherwise the row is created and one
   * CREATE audit row with no "before" document is appended.
   */
  method CreateIfEmpty(db: Database, actorUserId: Id, dto: CreateDto, now: Time) returns (r: Settings)
    requires Singleton(db.settings)
    modifies db`settings, db`audit
    ensures old(db.settings).Some? ==>
      r == old(db.settings).value && db.settings == old(db.settings) && db.audit == old(db.audit)
    ensures old(db.settings).None? ==>
      && r == Inserted(dto, now) && db.settings == Some(r)
      && db.audit == old(db.audit) + [AuditService.Entry(actorUserId, Entity, SettingsId, "CREATE", Some(JNull), Some(JSettings(r)), now)]
    ensures Singleton(db.settings)
  {
    var before := Find(db.settings);
    if before.Some? {
      return before.value;
    }
    var created := AppSettingsRepo.Create(db, dto, now);
    AuditService.Append(db, actorUserId, Entity, created.id, "CREATE", Some(JNull), Some(JSettings(created)), now);
    r := created;
  }

  /**
   * `update(actor, dto)`: "Settings not found", with nothing written, when
   * there is no row; otherwise the repository update and one UPDATE audit
   * row holding the row before and after.
   */
  method Update(db: Database, actorUserId: Id, dto: UpdateDto, now: Time) returns (r: Result<Settings>)
    requires Singleton(db.settings)
    modifies db`settings, db`audit
    ensures old(db.settings).None? ==>
      r == Err(SettingsNotFound) && db.settings == old(db.settings) && db.audit == old(db.audit)
    ensures old(db.settings).Some? ==>
      var before := old(db.settings).value;
      var after := UpdatedRow(before, dto, now);
      && r == Ok(after) && db.settings == Some(after)
      && db.audit == old(db.audit) + [AuditService.Entry(actorUserId, Entity, SettingsId, "UPDATE", Some(JSettings(before)), Some(JSettings(after)), now)]
    ensures Singleton(db.settings)
  {
    var before := Find(db.settings);
    if before.None? {
      return Err(SettingsNotFound);
    }
    var updated := AppSettingsRepo.Update(db, dto, now);
    var after := updated.value;
    AuditService.Append(db, actorUserId, Entity, after.id, "UPDATE", Some(JSettings(before.value)), Some(JSettings(after)), now);
    r := Ok(after);
  }

  /** The QR update shared by `setQrFromUrl` and `setQrFromFile`, audited under `action`. */
  method SetQr(db: Database, actorUserId: Id, url: string, action: string, now: Time) returns (r: Result<Settings>)
    requires Singleton(db.settings)
    modifies db`settings, db`audit
    ensures old(db.settings).None? ==>
      r == Err(SettingsNotFound) && db.settings == old(db.settings) && db.audit == old(db.audit)
    ensures old(db.settings).Some? ==>
      var before := old(db.settings).value;
      var after := before.(upiQrUrl := Some(url), updatedAt := now);
      && r == Ok(after) && db.settings == Some(after)
      && db.audit == old(db.audit) + [AuditService.Entry(actorUserId, Entity, SettingsId, action, Some(JSettings(before)), Some(JSettings(after)), now)]
    ensures Singleton(db.settings)
  {
    var before := Find(db.settings);
    if before.None? {
      return Err(SettingsNotFound);
    }
    var updated := AppSettingsRepo.SetQrUrl(db, url, now);
    var after := updated.value;
    AuditService.Append(db, actorUserId, Entity, after.id, action, Some(JSettings(before.value)), Some(JSettings(after)), now);
    r := Ok(after);
  }

  /** `setQrFromUrl(actor, url)`: the QR update audited as UPDATE_QR_URL. */
  method SetQrFromUrl(db: Database, actorUserId: Id, url: string, now: Time) returns (r: Result<Settings>)
    requires Singleton(db.settings)
    modifies db`settings, db`audit
    ensures old(db.settings).None? ==>
      r == Err(SettingsNotFound) && db.settings == old(db.settings) && db.audit == old(db.audit)
    ensures old(db.settings).Some? ==>
      var before := old(db.settings).value;
      var after := before.(upiQrUrl := Some(url), updatedAt := now);
      && r == Ok(after) && db.settings == Some(after)
      && db.audit == old(db.audit) + [AuditService.Entry(actorUserId, Entity, SettingsId, "UPDATE_QR_URL", Some(JSettings(before)), Some(JSettings(after)), now)]
  {
    r := SetQr(db, actorUserId, url, "UPDATE_QR_URL", now);
  }

  /**
   * `setQrFromFile(actor, file)`: after the row is found the image is
   * uploaded, and the URL the upload returns (`uploadedUrl`) is stored
   * and audited as UPDATE_QR_FILE.
   */
  method SetQrFromFile(db: Database, actorUserId: Id, uploadedUrl: string, now: Time) returns (r: Result<Settings>)
    requires Singleton(db.settings)
    modifies db`settings, db`audit
    ensures old(db.settings).None? ==>
      r == Err(SettingsNotFound) && db.settings == old(db.settings) && db.audit == old(db.audit)
    ensures old(db.settings).Some? ==>
      var before := old(db.settings).value;
      var after := before.(upiQrUrl := Some(uploadedUrl), updatedAt := now);
      && r == Ok(after) && db.settings == Some(after)
      && db.audit == old(db.audit) + [AuditService.Entry(actorUserId, Entity, SettingsId, "UPDATE_QR_FILE", Some(JSettings(before)), Some(JSettings(after)), now)]
  {
    r := SetQr(db, actorUserId, uploadedUrl, "UPDATE_QR_FILE", now);
  }

  /** What the checkout shows about payments: exactly four fields of the settings. */
  datatype PaymentsConfig = PaymentsConfig(businessName: string, upiVpa: string, upiPayeeName: string, upiQrUrl: Option<string>)

  /** `getPublicPaymentsConfig()`: nothing before the settings exist, otherwise the four public fields. */
  function PublicPaymentsConfig(settings: Option<Settings>): (r: Option<PaymentsConfig>)
    ensures r.None? <==> settings.None?
    ensures r.Some? ==>
      && r.value.businessName == settings.value.businessName && r.value.upiVpa == settings.value.upiVpa
      && r.value.upiPayeeName == settings.value.upiPayeeName && r.value.upiQrUrl == settings.value.upiQrUrl
  {
    match settings
    case None => None
    case Some(s) => Some(PaymentsConfig(s.businessName, s.upiVpa, s.upiPayeeName, s.upiQrUrl))
  }

  /** After a QR update the public payments configuration shows the new URL and nothing else of it changes. */
  lemma QrUpdateIsPublic(s: Settings, url: string, now: Time)
    ensures var c := PublicPaymentsConfig(Some(s.(upiQrUrl := Some(url), updatedAt := now)));
      c == Some(PublicPaymentsConfig(Some(s)).value.(upiQrUrl := Some(url)))
  {
  }

  /**
   * An update that defines none of the four public fields leaves the
   * public payments configuration as it was.
   */
  lemma PrivateUpdateKeepsPublicConfig(s: Settings, p: UpdateDto, now: Time)
    requires Given(p, BusinessName).None? && Given(p, UpiVpa).None? && Given(p, UpiPayeeName).None? && Given(p, UpiQrUrl).None?
    ensures PublicPaymentsConfig(Some(UpdatedRow(s, p, now))) == PublicPaymentsConfig(Some(s))
  {
  }

  /** Creating on an empty table makes the public configuration available, with the given payee details. */
  lemma CreatedIsPublic(dto: CreateDto, now: Time)
    ensures PublicPaymentsConfig(Some(Inserted(dto, now))) == Some(PaymentsConfig(dto.businessName, dto.upiVpa, dto.upiPayeeName, dto.upiQrUrl))
  {
  }
}
