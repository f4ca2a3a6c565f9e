/**
 * The `app_settings` table: a single row whose id is always "settings"
 * (a CHECK constraint of the schema), so the table is either empty or
 * holds that one row. `create` inserts it unless it exists; `update`
 * builds its SET clause from the fields the caller gave, numbering the
 * placeholders as it goes, and binds the row id last; `setQrUrl` writes
 * the QR image URL only. A BEFORE UPDATE trigger stamps `updated_at` on
 * every update.
 */
module AppSettingsRepo {
  import opened Wrappers
  import opened Db
  import opened Errors

  const SettingsId := "settings"

  /** The plain `Error` the updates throw when no row matched. */
  const SettingsNotFound := ErrorObject("Settings not found")

  /** Every row the table can hold has the singleton id. */
  predicate Singleton(settings: Option<Settings>) {
    settings.Some? ==> settings.value.id == SettingsId
  }

  /** `find()`: the singleton row, or nothing. */
  function Find(settings: Option<Settings>): (r: Option<Settings>)
    requires Singleton(settings)
    ensures r == settings && (r.Some? ==> r.value.id == SettingsId)
  {
    settings
  }

  /** The validated body of a create request. */
  datatype CreateDto = CreateDto(
    businessName: string, supportEmail: string, supportPhone: string, whatsappNumber: string,
    upiVpa: string, upiPayeeName: string, pickupAddress: string,
    currency: Option<string>, logoUrl: Option<string>, returnAddress: Option<string>,
    privacyUrl: Option<string>, termsUrl: Option<string>, returnPolicyUrl: Option<string>,
    upiQrUrl: Option<string>)

  /** The row `create` inserts: the singleton id, the currency defaulting to INR, both stamps now. */
  function Inserted(dto: CreateDto, now: Time): (s: Settings)
    ensures s.id == SettingsId && s.currency == dto.currency.GetOr("INR")
    ensures s.businessName == dto.businessName && s.upiVpa == dto.upiVpa && s.upiPayeeName == dto.upiPayeeName
    ensures s.upiQrUrl == dto.upiQrUrl && s.createdAt == now && s.updatedAt == now
  {
    Settings(SettingsId, dto.businessName, dto.supportEmail, dto.supportPhone, dto.whatsappNumber, dto.upiVpa,
             dto.upiPayeeName, dto.upiQrUrl, dto.pickupAddress, dto.currency.GetOr("INR"), dto.logoUrl,
             dto.returnAddress, dto.privacyUrl, dto.termsUrl, dto.returnPolicyUrl, now, now)
  }

  /**
   * `create(dto)`: `INSERT ... ON CONFLICT (id) DO NOTHING`; when nothing
   * was inserted the existing row is read back and returned unchanged.
   */
  method Create(db: Database, dto: CreateDto, now: Time) returns (r: Settings)
    requires Singleton(db.settings)
    modifies db`settings
    ensures old(db.settings).Some? ==> r == old(db.settings).value && db.settings == old(db.settings)
    ensures old(db.settings).None? ==> r == Inserted(dto, now) && db.settings == Some(r)
    ensures Singleton(db.settings)
  {
    if db.settings.Some? {
      var existing := Find(db.settings);
      return existing.value;
    }
    r := Inserted(dto, now);
    db.settings := Some(r);
  }

  /** The columns of the update's column map, in its order. */
  datatype Column =
    | BusinessName | SupportEmail | SupportPhone | WhatsappNumber | UpiVpa | UpiPayeeName | UpiQrUrl
    | PickupAddress | Currency | LogoUrl | ReturnAddress | PrivacyUrl | TermsUrl | ReturnPolicyUrl

  const Columns: seq<Column> := [
    BusinessName, SupportEmail, SupportPhone, WhatsappNumber, UpiVpa, UpiPayeeName, UpiQrUrl,
    PickupAddress, Currency, LogoUrl, ReturnAddress, PrivacyUrl, TermsUrl, ReturnPolicyUrl]

  lemma AllColumnsListed(c: Column)
    ensures c in Columns
  {
  }

  /** The validated body of an update request: every field may be left undefined. */
  datatype UpdateDto = UpdateDto(
    businessName: Option<string>, supportEmail: Option<string>, supportPhone: Option<string>,
    whatsappNumber: Option<string>, upiVpa: Option<string>, upiPayeeName: Option<string>,
    upiQrUrl: Option<string>, pickupAddress: Option<string>, currency: Option<string>,
    logoUrl: Option<string>, returnAddress: Option<string>, privacyUrl: Option<string>,
    termsUrl: Option<string>, returnPolicyUrl: Option<string>)

  /** The value the update body gives for a column, if it is defined. */
  function Given(p: UpdateDto, c: Column): Option<string> {
    match c
    case BusinessName => p.businessName
    case SupportEmail => p.supportEmail
    case SupportPhone => p.supportPhone
    case WhatsappNumber => p.whatsappNumber
    case UpiVpa => p.upiVpa
    case UpiPayeeName => p.upiPayeeName
    case UpiQrUrl => p.upiQrUrl
    case PickupAddress => p.pickupAddress
    case Currency => p.currency
    case LogoUrl => p.logoUrl
    case ReturnAddress => p.returnAddress
    case PrivacyUrl => p.privacyUrl
    case TermsUrl => p.termsUrl
    case ReturnPolicyUrl => p.returnPolicyUrl
  }

  /** A column's value in a row (the nullable ones as they are, the others always present). */
  function Read(s: Settings, c: Column): Option<string> {
    match c
    case BusinessName => Some(s.businessName)
    case SupportEmail => Some(s.supportEmail)
    case SupportPhone => Some(s.supportPhone)
    case WhatsappNumber => Some(s.whatsappNumber)
    case UpiVpa => Some(s.upiVpa)
    case UpiPayeeName => Some(s.upiPayeeName)
    case UpiQrUrl => s.upiQrUrl
    case PickupAddress => Some(s.pickupAddress)
    case Currency => Some(s.currency)
    case LogoUrl => s.logoUrl
    case ReturnAddress => s.returnAddress
    case PrivacyUrl => s.privacyUrl
    case TermsUrl => s.termsUrl
    case ReturnPolicyUrl => s.returnPolicyUrl
  }

  /** The update body defines no field at all. */
  predicate NothingGiven(p: UpdateDto) {
    forall c: Column :: Given(p, c).None?
  }

  /**
   * The intended effect of an update on a row: each field the body
   * defines takes that value, every other field keeps its own.
   */
  function Patched(s: Settings, p: UpdateDto): Settings {
    s.(businessName := p.businessName.GetOr(s.businessName),
       supportEmail := p.supportEmail.GetOr(s.supportEmail),
       supportPhone := p.supportPhone.GetOr(s.supportPhone),
       whatsappNumber := p.whatsappNumber.GetOr(s.whatsappNumber),
       upiVpa := p.upiVpa.GetOr(s.upiVpa),
       upiPayeeName := p.upiPayeeName.GetOr(s.upiPayeeName),
       upiQrUrl := if p.upiQrUrl.Some? then p.upiQrUrl else s.upiQrUrl,
       pickupAddress := p.pickupAddress.GetOr(s.pickupAddress),
       currency := p.currency.GetOr(s.currency),
       logoUrl := if p.logoUrl.Some? then p.logoUrl else s.logoUrl,
       returnAddress := if p.returnAddress.Some? then p.returnAddress else s.returnAddress,
       privacyUrl := if p.privacyUrl.Some? then p.privacyUrl else s.privacyUrl,
       termsUrl := if p.termsUrl.Some? then p.termsUrl else s.termsUrl,
       returnPolicyUrl := if p.returnPolicyUrl.Some? then p.returnPolicyUrl else s.returnPolicyUrl)
  }

  /** An update writes exactly the defined fields; id and creation stamp stay. */
  lemma PatchedWritesOnlyGiven(s: Settings, p: UpdateDto, c: Column)
    ensures Given(p, c).Some? ==> Read(Patched(s, p), c) == Given(p, c)
    ensures Given(p, c).None? ==> Read(Patched(s, p), c) == Read(s, c)
    ensures Patched(s, p).id == s.id && Patched(s, p).createdAt == s.createdAt
  {
  }

  /** Patching with a body that defines nothing is the identity. */
  lemma NothingGivenKeeps(s: Settings, p: UpdateDto)
    requires NothingGiven(p)
    ensures Patched(s, p) == s
  {
    assert Given(p, BusinessName).None? && Given(p, SupportEmail).None? && Given(p, SupportPhone).None?;
    assert Given(p, WhatsappNumber).None? && Given(p, UpiVpa).None? && Given(p, UpiPayeeName).None?;
    assert Given(p, UpiQrUrl).None? && Given(p, PickupAddress).None? && Given(p, Currency).None?;
    assert Given(p, LogoUrl).None? && Given(p, ReturnAddress).None? && Given(p, PrivacyUrl).None?;
    assert Given(p, TermsUrl).None? && Given(p, ReturnPolicyUrl).None?;
  }

  /** Applying the same update twice is applying it once. */
  lemma PatchedIdempotent(s: Settings, p: UpdateDto)
    ensures Patched(Patched(s, p), p) == Patched(s, p)
  {
  }

  /**
   * The UPDATE statement `update` sends: `col = $n` pairs, the values in
   * placeholder order, and the placeholder of the WHERE clause's id.
   */
  datatype UpdatePlan = UpdatePlan(sets: seq<(Column, nat)>, params: seq<string>, whereParam: nat)

  /** Every placeholder of the SET pairs is one of the first `n` values. */
  predicate PlacedWithin(sets: seq<(Column, nat)>, n: nat) {
    forall j :: 0 <= j < |sets| ==> 1 <= sets[j].1 <= n
  }

  /** The columns the SET clause assigns, with the values their placeholders bind. */
  function Assigned(sets: seq<(Column, nat)>, params: seq<string>): map<Column, string>
    requires PlacedWithin(sets, |params|)
  {
    if sets == [] then map[]
    else
      var (c, n) := sets[|sets| - 1];
      Assigned(sets[..|sets| - 1], params)[c := params[n - 1]]
  }

  /** The defined fields among `cols`, with their values. */
  function GivenAmong(p: UpdateDto, cols: seq<Column>): map<Column, string> {
    if cols == [] then map[]
    else
      var c := cols[|cols| - 1];
      var m := GivenAmong(p, cols[..|cols| - 1]);
      if Given(p, c).Some? then m[c := Given(p, c).value] else m
  }

  /** The row with every column of `m` overwritten by its value there. */
  function Overwrite(s: Settings, m: map<Column, string>): Settings {
    s.(businessName := if BusinessName in m then m[BusinessName] else s.businessName,
       supportEmail := if SupportEmail in m then m[SupportEmail] else s.supportEmail,
       supportPhone := if SupportPhone in m then m[SupportPhone] else s.supportPhone,
       whatsappNumber := if WhatsappNumber in m then m[WhatsappNumber] else s.whatsappNumber,
       upiVpa := if UpiVpa in m then m[UpiVpa] else s.upiVpa,
       upiPayeeName := if UpiPayeeName in m then m[UpiPayeeName] else s.upiPayeeName,
       upiQrUrl := if UpiQrUrl in m then Some(m[UpiQrUrl]) else s.upiQrUrl,
       pickupAddress := if PickupAddress in m then m[PickupAddress] else s.pickupAddress,
       currency := if Currency in m then m[Currency] else s.currency,
       logoUrl := if LogoUrl in m then Some(m[LogoUrl]) else s.logoUrl,
       returnAddress := if ReturnAddress in m then Some(m[ReturnAddress]) else s.returnAddress,
       privacyUrl := if PrivacyUrl in m then Some(m[PrivacyUrl]) else s.privacyUrl,
       termsUrl := if TermsUrl in m then Some(m[TermsUrl]) else s.termsUrl,
       returnPolicyUrl := if ReturnPolicyUrl in m then Some(m[ReturnPolicyUrl]) else s.returnPolicyUrl)
  }

  /** More values after the placeholders' range bind nothing new. */
  lemma {:induction false} AssignedExtend(sets: seq<(Column, nat)>, params: seq<string>, more: seq<string>)
    requires PlacedWithin(sets, |params|)
    ensures PlacedWithin(sets, |params + more|)
    ensures Assigned(sets, params + more) == Assigned(sets, params)
  {
    if sets != [] {
      assert PlacedWithin(sets[..|sets| - 1], |params|);
      AssignedExtend(sets[..|sets| - 1], params, more);
    }
  }

  /** Across all columns, the defined fields are exactly the columns the body defines. */
  lemma {:induction false} GivenAmongHas(p: UpdateDto, cols: seq<Column>, c: Column)
    ensures c in GivenAmong(p, cols) <==> c in cols && Given(p, c).Some?
    ensures c in GivenAmong(p, cols) ==> GivenAmong(p, cols)[c] == Given(p, c).value
  {
    if cols != [] {
      GivenAmongHas(p, cols[..|cols| - 1], c);
      assert cols == cols[..|cols| - 1] + [cols[|cols| - 1]];
    }
  }

  /** The defined fields of the body, over all columns. */
  predicate HoldsGiven(m: map<Column, string>, p: UpdateDto) {
    forall c: Column :: (c in m <==> Given(p, c).Some?) && (c in m ==> m[c] == Given(p, c).value)
  }

  /** Overwriting with exactly the defined fields is the intended patch. */
  lemma OverwriteIsPatched(s: Settings, p: UpdateDto, m: map<Column, string>)
    requires HoldsGiven(m, p)
    ensures Overwrite(s, m) == Patched(s, p)
  {
  }

  /** Overwriting with every defined field is the intended patch. */
  lemma OverwriteGivenIsPatched(s: Settings, p: UpdateDto)
    ensures Overwrite(s, GivenAmong(p, Columns)) == Patched(s, p)
  {
    var m := GivenAmong(p, Columns);
    forall c: Column
      ensures (c in m <==> Given(p, c).Some?) && (c in m ==> m[c] == Given(p, c).value)
    {
      GivenAmongHas(p, Columns, c);
      AllColumnsListed(c);
    }
    OverwriteIsPatched(s, p, m);
  }

  /**
   * The loop of `update`: for each column of the map whose value is
   * defined, push `col = $i` and the value, counting `i` up from 1; then
   * bind the row id after them. The SET pairs assign exactly the defined
   * fields their values, and the WHERE placeholder binds the row id.
   */
  method Assignments(p: UpdateDto) returns (plan: UpdatePlan)
    ensures plan.sets == [] <==> NothingGiven(p)
    ensures |plan.params| == |plan.sets| + 1
    ensures plan.whereParam == |plan.params| && plan.params[plan.whereParam - 1] == SettingsId
    ensures forall j :: 0 <= j < |plan.sets| ==> plan.sets[j].1 == j + 1
    ensures PlacedWithin(plan.sets, |plan.params|)
    ensures Assigned(plan.sets, plan.params) == GivenAmong(p, Columns)
  {
    var sets: seq<(Column, nat)> := [];
    var values: seq<string> := [];
    var i := 1;
    for k := 0 to |Columns|
      invariant |values| == |sets| && i == |sets| + 1
      invariant forall j :: 0 <= j < |sets| ==> sets[j].1 == j + 1
      invariant PlacedWithin(sets, |values|)
      invariant Assigned(sets, values) == GivenAmong(p, Columns[..k])
    {
      GivenAmongSnoc(p, Columns, k);
      var v := Given(p, Columns[k]);
      if v.Some? {
        PushAssignment(sets, values, Columns[k], v.value);
        sets := sets + [(Columns[k], i)];
        values := values + [v.value];
        i := i + 1;
      }
    }
    assert Columns[..|Columns|] == Columns;
    NoneGiven(p, sets, values);
    AssignedExtend(sets, values, [SettingsId]);
    plan := UpdatePlan(sets, values + [SettingsId], i);
  }

  /** One more `col = $n` pair, `n` numbering the value pushed with it, assigns that value to the column. */
  lemma PushAssignment(sets: seq<(Column, nat)>, values: seq<string>, c: Column, v: string)
    requires PlacedWithin(sets, |values|) && |values| == |sets|
    ensures PlacedWithin(sets + [(c, |values| + 1)], |values + [v]|)
    ensures Assigned(sets + [(c, |values| + 1)], values + [v]) == Assigned(sets, values)[c := v]
  {
    AssignedExtend(sets, values, [v]);
    assert (sets + [(c, |values| + 1)])[..|sets|] == sets;
  }

  /** The defined fields among one more column. */
  lemma GivenAmongSnoc(p: UpdateDto, cols: seq<Column>, k: nat)
    requires k < |cols|
    ensures GivenAmong(p, cols[..k + 1]) ==
      if Given(p, cols[k]).Some? then GivenAmong(p, cols[..k])[cols[k] := Given(p, cols[k]).value]
      else GivenAmong(p, cols[..k])
  {
    assert cols[..k + 1][..k] == cols[..k];
  }

  /** The loop found no defined value among all the columns exactly when the body defines no field. */
  lemma NoneGiven(p: UpdateDto, sets: seq<(Column, nat)>, values: seq<string>)
    requires PlacedWithin(sets, |values|)
    requires Assigned(sets, values) == GivenAmong(p, Columns)
    ensures sets == [] <==> NothingGiven(p)
  {
    if sets == [] {
      forall c: Column ensures Given(p, c).None? {
        GivenAmongHas(p, Columns, c);
        AllColumnsListed(c);
      }
    } else {
      var c := sets[|sets| - 1].0;
      assert c in Assigned(sets, values);
      GivenAmongHas(p, Columns, c);
    }
  }

  /** What `update(partial)` leaves in the row: nothing when no field is defined, else the patch and a fresh stamp. */
  function UpdatedRow(s: Settings, p: UpdateDto, now: Time): Settings {
    if NothingGiven(p) then s else Patched(s, p).(updatedAt := now)
  }

  /**
   * `update(partial)`: with no defined field, the existing row is
   * returned without a write (and "Settings not found" when there is
   * none); otherwise the UPDATE runs, and "Settings not found" when it
   * matched no row.
   */
  method Update(db: Database, p: UpdateDto, now: Time) returns (r: Result<Settings>)
    requires Singleton(db.settings)
    modifies db`settings
    ensures old(db.settings).None? ==> r == Err(SettingsNotFound) && db.settings == old(db.settings)
    ensures old(db.settings).Some? ==>
      r == Ok(UpdatedRow(old(db.settings).value, p, now)) && db.settings == Some(r.value)
    ensures Singleton(db.settings)
  {
    var plan := Assignments(p);
    if plan.sets == [] {
      var existing := Find(db.settings);
      if existing.None? {
        return Err(SettingsNotFound);
      }
      return Ok(existing.value);
    }
    if db.settings.None? || db.settings.value.id != plan.params[plan.whereParam - 1] {
      return Err(SettingsNotFound);
    }
    var row := Overwrite(db.settings.value, Assigned(plan.sets, plan.params)).(updatedAt := now);
    OverwriteGivenIsPatched(db.settings.value, p);
    db.settings := Some(row);
    r := Ok(row);
  }

  /** `setQrUrl(url)`: only the QR URL (and the trigger's stamp) change; "Settings not found" without a row. */
  method SetQrUrl(db: Database, url: string, now: Time) returns (r: Result<Settings>)
    requires Singleton(db.settings)
    modifies db`settings
    ensures old(db.settings).None? ==> r == Err(SettingsNotFound) && db.settings == old(db.settings)
    ensures old(db.settings).Some? ==>
      r == Ok(old(db.settings).value.(upiQrUrl := Some(url), updatedAt := now)) && db.settings == Some(r.value)
    ensures Singleton(db.settings)
  {
    if db.settings.None? {
      return Err(SettingsNotFound);
    }
    var row := db.settings.value.(upiQrUrl := Some(url), updatedAt := now);
    db.settings := Some(row);
    r := Ok(row);
  }

  /**
   * Setting the QR URL is the general update with only `upiQrUrl`
   * defined: every other column keeps its value.
   */
  lemma SetQrUrlIsUpdate(s: Settings, url: string, now: Time)
    ensures var p := UpdateDto(None, None, None, None, None, None, Some(url), None, None, None, None, None, None, None);
      && UpdatedRow(s, p, now) == s.(upiQrUrl := Some(url), updatedAt := now)
      && forall c :: c != UpiQrUrl ==> Read(UpdatedRow(s, p, now), c) == Read(s, c)
  {
    var p := UpdateDto(None, None, None, None, None, None, Some(url), None, None, None, None, None, None, None);
    assert Given(p, UpiQrUrl).Some?;
  }
}
