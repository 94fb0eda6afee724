/**
 The checkpoint record: what a stored payload has to look like to be promoted to a setup state, and that
 every state the flow writes loads back equal.
 */
module Checkpoint {
  import opened Text
  import opened KeyList
  import opened SetupTypes
  import W = SetupWorld

  /** The field names of the record, and any other. */
  datatype Field =
    | VersionField | StatusField | ProjectIdField | ProjectModeField | OwnerEmailField | SaNameField | SaEmailField | KeyPathField
    | SpreadsheetTitleField | KeyMarkerField | KeyBaselineField | KeyOriginField | CreationMarkerField | SpreadsheetIdField
    | ShareOriginField | PoolField | SpreadsheetUrlField | OtherField(name: string)

  /** A JSON value. A field that is not in the map reads as undefined. */
  datatype Json = Null | Bool(b: bool) | Number(n: int) | Str(s: string) | Array(items: seq<Json>) | Object(fields: map<Field, Json>)

  datatype PoolEntry = PoolEntry(saName: string, saEmail: string, keyPath: string)

  datatype Common = Common(
    projectId: string, projectMode: ProjectMode, ownerEmail: string, saName: string, saEmail: string,
    keyPath: string, spreadsheetTitle: string)

  /** What each status carries besides the common fields. */
  datatype Progress =
    | ProjectSelected
    | KeyCreateStarted(keyMarker: string, keyBaseline: seq<string>)
    | KeyReady(keyOrigin: KeyOrigin)
    | SpreadsheetCreateStarted(creationMarker: string, keyOrigin: KeyOrigin)
    | SpreadsheetCreated(spreadsheetId: string, keyOrigin: KeyOrigin)
    | SpreadsheetShareStarted(spreadsheetId: string, keyOrigin: KeyOrigin)
    | SpreadsheetShared(spreadsheetId: string, keyOrigin: KeyOrigin, shareOrigin: ShareOrigin)
    | Complete(spreadsheetId: string, keyOrigin: KeyOrigin, shareOrigin: ShareOrigin, pool: Option<seq<PoolEntry>>)

  datatype SetupState = SetupState(common: Common, progress: Progress)

  const VERSION := 1

  // ---- Formats ----

  function ServiceAccountEmail(saName: string, projectId: string): string {
    saName + "@" + projectId + ".iam.gserviceaccount.com"
  }

  // ---- Validation ----

  function StringField(fields: map<Field, Json>, name: Field): Option<string> {
    if name in fields && fields[name].Str? then Some(fields[name].s) else None
  }

  function NonEmpty(fields: map<Field, Json>, name: Field): Option<string> {
    match StringField(fields, name)
    case Some(s) => if s == "" then None else Some(s)
    case None => None
  }

  datatype Status =
    | ProjectSelectedStatus | KeyCreateStartedStatus | KeyReadyStatus | SpreadsheetCreateStartedStatus
    | SpreadsheetCreatedStatus | SpreadsheetShareStartedStatus | SpreadsheetSharedStatus | CompleteStatus

  function StatusText(status: Status): string {
    match status
    case ProjectSelectedStatus => "project_selected"
    case KeyCreateStartedStatus => "key_create_started"
    case KeyReadyStatus => "key_ready"
    case SpreadsheetCreateStartedStatus => "spreadsheet_create_started"
    case SpreadsheetCreatedStatus => "spreadsheet_created"
    case SpreadsheetShareStartedStatus => "spreadsheet_share_started"
    case SpreadsheetSharedStatus => "spreadsheet_shared"
    case CompleteStatus => "complete"
  }

  function StatusOf(text: string): Option<Status> {
    if text == "project_selected" then Some(ProjectSelectedStatus)
    else if text == "key_create_started" then Some(KeyCreateStartedStatus)
    else if text == "key_ready" then Some(KeyReadyStatus)
    else if text == "spreadsheet_create_started" then Some(SpreadsheetCreateStartedStatus)
    else if text == "spreadsheet_created" then Some(SpreadsheetCreatedStatus)
    else if text == "spreadsheet_share_started" then Some(SpreadsheetShareStartedStatus)
    else if text == "spreadsheet_shared" then Some(SpreadsheetSharedStatus)
    else if text == "complete" then Some(CompleteStatus)
    else None
  }

  function ModeText(mode: ProjectMode): string {
    if mode.Explicit? then "explicit" else "generated"
  }

  function ModeOf(text: string): Option<ProjectMode> {
    if text == "explicit" then Some(Explicit) else if text == "generated" then Some(Generated) else None
  }

  function KeyOriginText(origin: KeyOrigin): string {
    if origin.KeyCreated? then "created" else "reused"
  }

  function KeyOriginOf(text: string): Option<KeyOrigin> {
    if text == "created" then Some(KeyCreated) else if text == "reused" then Some(KeyReused) else None
  }

  function ShareOriginText(origin: ShareOrigin): string {
    if origin.ShareFresh? then "fresh" else "reused"
  }

  function ShareOriginOf(text: string): Option<ShareOrigin> {
    if text == "fresh" then Some(ShareFresh) else if text == "reused" then Some(ShareReused) else None
  }

  /** A string field promoted by `of`. */
  function Promoted<T>(fields: map<Field, Json>, name: Field, of: string -> Option<T>): Option<T> {
    match StringField(fields, name)
    case Some(s) => of(s)
    case None => None
  }

  /** The fields every status has; the stored email must be the canonical one. */
  predicate IsValidCommon(c: Common) {
    && IsGcpName(c.projectId) && c.ownerEmail != "" && IsGcpName(c.saName) && c.keyPath != "" && c.spreadsheetTitle != ""
    && c.saEmail == ServiceAccountEmail(c.saName, c.projectId)
  }

  function ExtractCommon(fields: map<Field, Json>): Option<Common> {
    match (StringField(fields, ProjectIdField), Promoted(fields, ProjectModeField, ModeOf), NonEmpty(fields, OwnerEmailField),
           StringField(fields, SaNameField), NonEmpty(fields, SaEmailField), NonEmpty(fields, KeyPathField),
           NonEmpty(fields, SpreadsheetTitleField))
    case (Some(projectId), Some(mode), Some(owner), Some(saName), Some(saEmail), Some(keyPath), Some(title)) =>
      var c := Common(projectId, mode, owner, saName, saEmail, keyPath, title);
      if IsValidCommon(c) then Some(c) else None
    case _ => None
  }

  /** None of these fields is present. */
  predicate Absent(fields: map<Field, Json>, names: set<Field>) {
    forall n :: n in names ==> n !in fields
  }

  function Strings(items: seq<Json>): Option<seq<string>> {
    if items == [] then Some([])
    else if !items[0].Str? then None
    else
      match Strings(items[1..])
      case Some(rest) => Some([items[0].s] + rest)
      case None => None
  }

  function BaselineOf(fields: map<Field, Json>, c: Common): Option<seq<string>> {
    if KeyBaselineField !in fields || !fields[KeyBaselineField].Array? then None
    else
      match Strings(fields[KeyBaselineField].items)
      case Some(names) => if IsValidKeyBaseline(names, c.projectId, c.saEmail) then Some(names) else None
      case None => None
  }

  predicate IsValidPoolEntry(e: PoolEntry, c: Common) {
    IsGcpName(e.saName) && e.keyPath != "" && e.saEmail == ServiceAccountEmail(e.saName, c.projectId)
  }

  function PoolEntryOf(item: Json, c: Common): Option<PoolEntry> {
    if !item.Object? then None
    else
      match (StringField(item.fields, SaNameField), NonEmpty(item.fields, SaEmailField), NonEmpty(item.fields, KeyPathField))
      case (Some(saName), Some(saEmail), Some(keyPath)) =>
        var e := PoolEntry(saName, saEmail, keyPath);
        if IsValidPoolEntry(e, c) then Some(e) else None
      case _ => None
  }

  function PoolEntries(items: seq<Json>, c: Common): Option<seq<PoolEntry>> {
    if items == [] then Some([])
    else
      match (PoolEntryOf(items[0], c), PoolEntries(items[1..], c))
      case (Some(e), Some(rest)) => Some([e] + rest)
      case _ => None
  }

  /** The first entry duplicates the primary account. */
  predicate IsValidPool(pool: seq<PoolEntry>, c: Common) {
    && pool != [] && pool[0] == PoolEntry(c.saName, c.saEmail, c.keyPath)
    && forall e :: e in pool ==> IsValidPoolEntry(e, c)
  }

  /** None when the field is malformed; no pool when it is absent. */
  function PoolOf(fields: map<Field, Json>, c: Common): Option<Option<seq<PoolEntry>>> {
    if PoolField !in fields then Some(None)
    else if !fields[PoolField].Array? then None
    else
      match PoolEntries(fields[PoolField].items, c)
      case Some(pool) => if IsValidPool(pool, c) then Some(Some(pool)) else None
      case None => None
  }

  /** Validates an untrusted payload and promotes it. */
  function Validate(value: Json): Option<SetupState> {
    if !value.Object? || VersionField !in value.fields || value.fields[VersionField] != Number(VERSION) then None
    else
      match (Promoted(value.fields, StatusField, StatusOf), ExtractCommon(value.fields))
      case (Some(status), Some(c)) =>
        if SpreadsheetUrlField in value.fields then None
        else
          (match ProgressOf(status, value.fields, c)
           case Some(progress) => Some(SetupState(c, progress))
           case None => None)
      case _ => None
  }

  /** The fields a status must not carry. */
  function Excluded(status: Status): set<Field> {
    match status
    case ProjectSelectedStatus =>
      {SpreadsheetIdField, CreationMarkerField, KeyMarkerField, KeyBaselineField, KeyOriginField, ShareOriginField, PoolField}
    case KeyCreateStartedStatus => {SpreadsheetIdField, CreationMarkerField, KeyOriginField, ShareOriginField, PoolField}
    case KeyReadyStatus => {SpreadsheetIdField, CreationMarkerField, KeyMarkerField, KeyBaselineField, ShareOriginField, PoolField}
    case SpreadsheetCreateStartedStatus => {SpreadsheetIdField, KeyMarkerField, KeyBaselineField, ShareOriginField, PoolField}
    case SpreadsheetCreatedStatus => {CreationMarkerField, KeyMarkerField, KeyBaselineField, ShareOriginField, PoolField}
    case SpreadsheetShareStartedStatus => {CreationMarkerField, KeyMarkerField, KeyBaselineField, ShareOriginField, PoolField}
    case SpreadsheetSharedStatus => {CreationMarkerField, KeyMarkerField, KeyBaselineField, PoolField}
    case CompleteStatus => {CreationMarkerField, KeyMarkerField, KeyBaselineField}
  }

  function ProgressOf(status: Status, fields: map<Field, Json>, c: Common): Option<Progress> {
    if !Absent(fields, Excluded(status)) then None
    else
      match status
      case ProjectSelectedStatus => Some(ProjectSelected)
      case KeyCreateStartedStatus =>
        (match (StringField(fields, KeyMarkerField), BaselineOf(fields, c))
         case (Some(marker), Some(baseline)) => if IsMarker(marker) then Some(KeyCreateStarted(marker, baseline)) else None
         case _ => None)
      case _ =>
        match Promoted(fields, KeyOriginField, KeyOriginOf)
        case None => None
        case Some(origin) => AfterKey(status, fields, c, origin)
  }

  /** The statuses that carry a key origin. */
  function AfterKey(status: Status, fields: map<Field, Json>, c: Common, origin: KeyOrigin): Option<Progress> {
    if status.KeyReadyStatus? then Some(KeyReady(origin))
    else if status.SpreadsheetCreateStartedStatus? then
      match StringField(fields, CreationMarkerField)
      case Some(marker) => if IsMarker(marker) then Some(SpreadsheetCreateStarted(marker, origin)) else None
      case None => None
    else
      match StringField(fields, SpreadsheetIdField)
      case None => None
      case Some(id) =>
        if !IsDriveId(id) then None
        else if status.SpreadsheetCreatedStatus? then Some(SpreadsheetCreated(id, origin))
        else if status.SpreadsheetShareStartedStatus? then Some(SpreadsheetShareStarted(id, origin))
        else
          match (Promoted(fields, ShareOriginField, ShareOriginOf), PoolOf(fields, c))
          case (Some(share), Some(pool)) =>
            Some(if status.SpreadsheetSharedStatus? then SpreadsheetShared(id, origin, share) else Complete(id, origin, share, pool))
          case _ => None
  }

  // ---- Writing ----

  function StatusOfProgress(p: Progress): Status {
    match p
    case ProjectSelected => ProjectSelectedStatus
    case KeyCreateStarted(_, _) => KeyCreateStartedStatus
    case KeyReady(_) => KeyReadyStatus
    case SpreadsheetCreateStarted(_, _) => SpreadsheetCreateStartedStatus
    case SpreadsheetCreated(_, _) => SpreadsheetCreatedStatus
    case SpreadsheetShareStarted(_, _) => SpreadsheetShareStartedStatus
    case SpreadsheetShared(_, _, _) => SpreadsheetSharedStatus
    case Complete(_, _, _, _) => CompleteStatus
  }

  function CommonFields(c: Common, status: Status): map<Field, Json> {
    map[VersionField := Number(VERSION), StatusField := Str(StatusText(status)),
        ProjectIdField := Str(c.projectId), ProjectModeField := Str(ModeText(c.projectMode)),
        OwnerEmailField := Str(c.ownerEmail), SaNameField := Str(c.saName), SaEmailField := Str(c.saEmail),
        KeyPathField := Str(c.keyPath), SpreadsheetTitleField := Str(c.spreadsheetTitle)]
  }

  function StringItems(names: seq<string>): seq<Json> {
    if names == [] then [] else [Str(names[0])] + StringItems(names[1..])
  }

  function EntryJson(e: PoolEntry): Json {
    Object(map[SaNameField := Str(e.saName), SaEmailField := Str(e.saEmail), KeyPathField := Str(e.keyPath)])
  }

  function PoolItems(pool: seq<PoolEntry>): seq<Json> {
    if pool == [] then [] else [EntryJson(pool[0])] + PoolItems(pool[1..])
  }

  function ProgressFields(p: Progress): map<Field, Json> {
    match p
    case ProjectSelected => map[]
    case KeyCreateStarted(marker, baseline) => map[KeyMarkerField := Str(marker), KeyBaselineField := Array(StringItems(baseline))]
    case KeyReady(origin) => map[KeyOriginField := Str(KeyOriginText(origin))]
    case SpreadsheetCreateStarted(marker, origin) =>
      map[CreationMarkerField := Str(marker), KeyOriginField := Str(KeyOriginText(origin))]
    case SpreadsheetCreated(id, origin) => map[SpreadsheetIdField := Str(id), KeyOriginField := Str(KeyOriginText(origin))]
    case SpreadsheetShareStarted(id, origin) => map[SpreadsheetIdField := Str(id), KeyOriginField := Str(KeyOriginText(origin))]
    case SpreadsheetShared(id, origin, share) =>
      map[SpreadsheetIdField := Str(id), KeyOriginField := Str(KeyOriginText(origin)), ShareOriginField := Str(ShareOriginText(share))]
    case Complete(id, origin, share, pool) =>
      map[SpreadsheetIdField := Str(id), KeyOriginField := Str(KeyOriginText(origin)), ShareOriginField := Str(ShareOriginText(share))]
      + match pool case None => map[] case Some(entries) => map[PoolField := Array(PoolItems(entries))]
  }

  /** The record the flow stores. */
  function Fields(s: SetupState): map<Field, Json> {
    ProgressFields(s.progress) + CommonFields(s.common, StatusOfProgress(s.progress))
  }

  predicate IsValidProgress(p: Progress, c: Common) {
    match p
    case ProjectSelected => true
    case KeyCreateStarted(marker, baseline) => IsMarker(marker) && IsValidKeyBaseline(baseline, c.projectId, c.saEmail)
    case KeyReady(_) => true
    case SpreadsheetCreateStarted(marker, _) => IsMarker(marker)
    case SpreadsheetCreated(id, _) => IsDriveId(id)
    case SpreadsheetShareStarted(id, _) => IsDriveId(id)
    case SpreadsheetShared(id, _, _) => IsDriveId(id)
    case Complete(id, _, _, pool) => IsDriveId(id) && (pool.Some? ==> IsValidPool(pool.value, c))
  }

  predicate IsValidState(s: SetupState) {
    IsValidCommon(s.common) && IsValidProgress(s.progress, s.common)
  }

  // ---- Loading what was written ----

  lemma TextsRoundTrip(status: Status, mode: ProjectMode, key: KeyOrigin, share: ShareOrigin)
    ensures StatusOf(StatusText(status)) == Some(status)
    ensures ModeOf(ModeText(mode)) == Some(mode)
    ensures KeyOriginOf(KeyOriginText(key)) == Some(key)
    ensures ShareOriginOf(ShareOriginText(share)) == Some(share)
  {
  }

  lemma {:induction false} StringsRoundTrip(names: seq<string>)
    ensures Strings(StringItems(names)) == Some(names)
  {
    if names != [] {
      StringsRoundTrip(names[1..]);
      assert StringItems(names)[1..] == StringItems(names[1..]) && [names[0]] + names[1..] == names;
    }
  }

  lemma {:induction false} PoolRoundTrip(pool: seq<PoolEntry>, c: Common)
    requires forall e :: e in pool ==> IsValidPoolEntry(e, c)
    ensures PoolEntries(PoolItems(pool), c) == Some(pool)
  {
    if pool != [] {
      PoolRoundTrip(pool[1..], c);
      assert PoolItems(pool)[1..] == PoolItems(pool[1..]) && [pool[0]] + pool[1..] == pool;
      EntryRoundTrip(pool[0], c);
    }
  }

  lemma EmailNotEmpty(saName: string, projectId: string)
    ensures ServiceAccountEmail(saName, projectId) != ""
  {
    var n := |saName|;
    assert ServiceAccountEmail(saName, projectId)[n] == '@';
  }

  lemma EntryRoundTrip(e: PoolEntry, c: Common)
    requires IsValidPoolEntry(e, c)
    ensures PoolEntryOf(EntryJson(e), c) == Some(e)
  {
    EmailNotEmpty(e.saName, c.projectId);
  }

  /** The common fields of a stored record. */
  predicate HasCommon(fields: map<Field, Json>, c: Common, status: Status) {
    && VersionField in fields && fields[VersionField] == Number(VERSION) && SpreadsheetUrlField !in fields
    && StringField(fields, StatusField) == Some(StatusText(status))
    && StringField(fields, ProjectIdField) == Some(c.projectId)
    && StringField(fields, ProjectModeField) == Some(ModeText(c.projectMode))
    && StringField(fields, OwnerEmailField) == Some(c.ownerEmail)
    && StringField(fields, SaNameField) == Some(c.saName)
    && StringField(fields, SaEmailField) == Some(c.saEmail)
    && StringField(fields, KeyPathField) == Some(c.keyPath)
    && StringField(fields, SpreadsheetTitleField) == Some(c.spreadsheetTitle)
  }

  lemma FieldsHaveCommon(s: SetupState)
    ensures HasCommon(Fields(s), s.common, StatusOfProgress(s.progress))
  {
    hide StatusText, ModeText, StatusOfProgress;
    var fields := CommonFields(s.common, StatusOfProgress(s.progress));
    assert HasCommon(fields, s.common, StatusOfProgress(s.progress));
    assert SpreadsheetUrlField !in ProgressFields(s.progress);
  }

  lemma CommonRoundTrip(fields: map<Field, Json>, c: Common, status: Status)
    requires IsValidCommon(c) && HasCommon(fields, c, status)
    ensures ExtractCommon(fields) == Some(c)
    ensures Promoted(fields, StatusField, StatusOf) == Some(status)
  {
    TextsRoundTrip(status, c.projectMode, KeyCreated, ShareFresh);
    EmailNotEmpty(c.saName, c.projectId);
    hide StatusText, StatusOf, ModeText, ModeOf, ServiceAccountEmail, IsGcpName, StringField;
  }

  /** The progress fields of a stored record are exactly those of the progress. */
  ghost predicate HasProgress(fields: map<Field, Json>, p: Progress) {
    forall f :: f in PROGRESS_FIELDS ==>
      (f in fields <==> f in ProgressFields(p)) && (f in fields ==> fields[f] == ProgressFields(p)[f])
  }

  const PROGRESS_FIELDS :=
    {KeyMarkerField, KeyBaselineField, KeyOriginField, CreationMarkerField, SpreadsheetIdField, ShareOriginField, PoolField}

  lemma FieldsHaveProgress(s: SetupState)
    ensures HasProgress(Fields(s), s.progress)
  {
    hide ProgressFields;
    forall f | f in PROGRESS_FIELDS
      ensures f !in CommonFields(s.common, StatusOfProgress(s.progress))
    {
    }
  }

  /** A status excludes exactly the progress fields it does not store, but for the optional pool. */
  lemma ExcludedAbsent(fields: map<Field, Json>, p: Progress)
    requires HasProgress(fields, p)
    ensures Absent(fields, Excluded(StatusOfProgress(p)))
  {
    hide ProgressFields, StatusOfProgress;
    forall f | f in Excluded(StatusOfProgress(p))
      ensures f in PROGRESS_FIELDS && f !in ProgressFields(p)
    {
      assert f in PROGRESS_FIELDS;
      StoredOrExcluded(p, f);
    }
  }

  lemma OriginsRoundTrip(fields: map<Field, Json>, p: Progress)
    requires HasProgress(fields, p)
    ensures !p.ProjectSelected? && !p.KeyCreateStarted? ==> Promoted(fields, KeyOriginField, KeyOriginOf) == Some(p.keyOrigin)
    ensures p.SpreadsheetShared? || p.Complete? ==> Promoted(fields, ShareOriginField, ShareOriginOf) == Some(p.shareOrigin)
    ensures p.SpreadsheetCreated? || p.SpreadsheetShareStarted? || p.SpreadsheetShared? || p.Complete? ==>
              StringField(fields, SpreadsheetIdField) == Some(p.spreadsheetId)
    ensures p.SpreadsheetCreateStarted? ==> StringField(fields, CreationMarkerField) == Some(p.creationMarker)
    ensures p.KeyCreateStarted? ==> StringField(fields, KeyMarkerField) == Some(p.keyMarker)
  {
    if !p.ProjectSelected? && !p.KeyCreateStarted? {
      TextsRoundTrip(ProjectSelectedStatus, Explicit, p.keyOrigin, if p.SpreadsheetShared? || p.Complete? then p.shareOrigin else ShareFresh);
    }
    hide KeyOriginText, KeyOriginOf, ShareOriginText, ShareOriginOf;
    assert KeyOriginField in PROGRESS_FIELDS && ShareOriginField in PROGRESS_FIELDS && SpreadsheetIdField in PROGRESS_FIELDS;
    assert CreationMarkerField in PROGRESS_FIELDS && KeyMarkerField in PROGRESS_FIELDS;
  }

  lemma ListsRoundTrip(fields: map<Field, Json>, p: Progress, c: Common)
    requires HasProgress(fields, p) && IsValidProgress(p, c)
    ensures p.KeyCreateStarted? ==> BaselineOf(fields, c) == Some(p.keyBaseline)
    ensures p.Complete? ==> PoolOf(fields, c) == Some(p.pool)
    ensures p.SpreadsheetShared? ==> PoolOf(fields, c) == Some(None)
  {
    assert KeyBaselineField in PROGRESS_FIELDS && PoolField in PROGRESS_FIELDS;
    if p.KeyCreateStarted? {
      StringsRoundTrip(p.keyBaseline);
    }
    if p.Complete? && p.pool.Some? {
      PoolRoundTrip(p.pool.value, c);
    }
  }

  lemma ProgressRoundTrip(fields: map<Field, Json>, p: Progress, c: Common)
    requires HasProgress(fields, p) && IsValidProgress(p, c)
    ensures ProgressOf(StatusOfProgress(p), fields, c) == Some(p)
  {
    ExcludedAbsent(fields, p);
    OriginsRoundTrip(fields, p);
    ListsRoundTrip(fields, p, c);
    hide HasProgress, Promoted, StringField, BaselineOf, PoolOf, Absent, Excluded, IsMarker, IsDriveId, IsValidKeyBaseline;
  }

  /** Every valid state is accepted when it is loaded, and loads back equal. */
  lemma LoadsBack(s: SetupState)
    requires IsValidState(s)
    ensures Validate(Object(Fields(s))) == Some(s)
  {
    FieldsHaveCommon(s);
    FieldsHaveProgress(s);
    CommonRoundTrip(Fields(s), s.common, StatusOfProgress(s.progress));
    ProgressRoundTrip(Fields(s), s.progress, s.common);
    hide Fields, ExtractCommon, Promoted, ProgressOf, StatusOfProgress, HasProgress, IsValidState;
  }

  // ---- What is accepted ----

  lemma TextsInverse(text: string)
    ensures StatusOf(text).Some? ==> StatusText(StatusOf(text).value) == text
    ensures ModeOf(text).Some? ==> ModeText(ModeOf(text).value) == text
    ensures KeyOriginOf(text).Some? ==> KeyOriginText(KeyOriginOf(text).value) == text
    ensures ShareOriginOf(text).Some? ==> ShareOriginText(ShareOriginOf(text).value) == text
  {
  }

  lemma {:induction false} StringsInverse(items: seq<Json>)
    ensures Strings(items).Some? ==> StringItems(Strings(items).value) == items
  {
    if items != [] {
      StringsInverse(items[1..]);
      if Strings(items).Some? {
        var names := Strings(items).value;
        assert names[1..] == Strings(items[1..]).value;
        assert [items[0]] + items[1..] == items;
      }
    }
  }

  lemma CommonInverse(fields: map<Field, Json>)
    requires ExtractCommon(fields).Some? && Promoted(fields, StatusField, StatusOf).Some?
    requires VersionField in fields && fields[VersionField] == Number(VERSION) && SpreadsheetUrlField !in fields
    ensures var c := ExtractCommon(fields).value;
            IsValidCommon(c) && HasCommon(fields, c, Promoted(fields, StatusField, StatusOf).value)
  {
    TextsInverse(StringField(fields, StatusField).value);
    TextsInverse(StringField(fields, ProjectModeField).value);
    hide StatusText, StatusOf, ModeText, ModeOf, ServiceAccountEmail, IsGcpName, StringField;
  }

  /** The payload carries exactly the progress fields of the state, with the same values; a pool may say more. */
  ghost predicate CarriesProgress(fields: map<Field, Json>, p: Progress) {
    forall f :: f in PROGRESS_FIELDS ==>
      (f in fields <==> f in ProgressFields(p)) && (f in fields && f != PoolField ==> fields[f] == ProgressFields(p)[f])
  }

  lemma StringFieldStored(fields: map<Field, Json>, name: Field)
    ensures StringField(fields, name).Some? ==> name in fields && fields[name] == Str(StringField(fields, name).value)
  {
  }

  lemma OriginInverse(fields: map<Field, Json>)
    ensures var key := Promoted(fields, KeyOriginField, KeyOriginOf);
            key.Some? ==> KeyOriginField in fields && fields[KeyOriginField] == Str(KeyOriginText(key.value))
    ensures var share := Promoted(fields, ShareOriginField, ShareOriginOf);
            share.Some? ==> ShareOriginField in fields && fields[ShareOriginField] == Str(ShareOriginText(share.value))
  {
    if StringField(fields, KeyOriginField).Some? {
      TextsInverse(StringField(fields, KeyOriginField).value);
    }
    if StringField(fields, ShareOriginField).Some? {
      TextsInverse(StringField(fields, ShareOriginField).value);
    }
  }

  lemma ListsInverse(fields: map<Field, Json>, c: Common)
    ensures var b := BaselineOf(fields, c);
            b.Some? ==>
              && IsValidKeyBaseline(b.value, c.projectId, c.saEmail)
              && KeyBaselineField in fields && fields[KeyBaselineField] == Array(StringItems(b.value))
    ensures var p := PoolOf(fields, c);
            p.Some? ==> (PoolField in fields <==> p.value.Some?) && (p.value.Some? ==> IsValidPool(p.value.value, c))
  {
    if KeyBaselineField in fields && fields[KeyBaselineField].Array? {
      StringsInverse(fields[KeyBaselineField].items);
    }
  }

  lemma ProgressInverse(status: Status, fields: map<Field, Json>, c: Common)
    requires ProgressOf(status, fields, c).Some?
    ensures var p := ProgressOf(status, fields, c).value;
            StatusOfProgress(p) == status && IsValidProgress(p, c) && CarriesProgress(fields, p)
  {
    hide Promoted, StringField, BaselineOf, PoolOf, AfterKey, CarriesProgress, IsMarker, IsDriveId, IsValidPool, IsValidKeyBaseline;
    if status.ProjectSelectedStatus? {
      NothingCarried(fields);
    } else if status.KeyCreateStartedStatus? {
      StartedCarried(fields, c);
    } else {
      OriginInverse(fields);
      AfterKeyInverse(status, fields, c, Promoted(fields, KeyOriginField, KeyOriginOf).value);
    }
  }

  lemma NothingCarried(fields: map<Field, Json>)
    requires Absent(fields, Excluded(ProjectSelectedStatus))
    ensures CarriesProgress(fields, ProjectSelected)
  {
  }

  lemma StartedCarried(fields: map<Field, Json>, c: Common)
    requires Absent(fields, Excluded(KeyCreateStartedStatus))
    requires StringField(fields, KeyMarkerField).Some? && BaselineOf(fields, c).Some?
    ensures var p := KeyCreateStarted(StringField(fields, KeyMarkerField).value, BaselineOf(fields, c).value);
            CarriesProgress(fields, p) && IsValidKeyBaseline(p.keyBaseline, c.projectId, c.saEmail)
  {
    StringFieldStored(fields, KeyMarkerField);
    ListsInverse(fields, c);
    hide StringField, BaselineOf, StringItems, IsValidKeyBaseline;
  }

  /** The statuses that carry a key origin. */
  lemma AfterKeyInverse(status: Status, fields: map<Field, Json>, c: Common, origin: KeyOrigin)
    requires Absent(fields, Excluded(status)) && !status.ProjectSelectedStatus? && !status.KeyCreateStartedStatus?
    requires KeyOriginField in fields && fields[KeyOriginField] == Str(KeyOriginText(origin))
    requires AfterKey(status, fields, c, origin).Some?
    ensures var p := AfterKey(status, fields, c, origin).value;
            StatusOfProgress(p) == status && IsValidProgress(p, c) && CarriesProgress(fields, p)
  {
    AfterKeyStatus(status, fields, c, origin);
    AfterKeyCarried(status, fields, c, origin);
    hide AfterKey, IsValidProgress, CarriesProgress, StatusOfProgress;
  }

  lemma AfterKeyStatus(status: Status, fields: map<Field, Json>, c: Common, origin: KeyOrigin)
    requires AfterKey(status, fields, c, origin).Some? && !status.ProjectSelectedStatus? && !status.KeyCreateStartedStatus?
    ensures var p := AfterKey(status, fields, c, origin).value;
            StatusOfProgress(p) == status && IsValidProgress(p, c)
  {
    hide Promoted, StringField, PoolOf, IsMarker, IsDriveId, IsValidPool, KeyOriginText, ShareOriginText;
    ListsInverse(fields, c);
  }

  lemma AfterKeyCarried(status: Status, fields: map<Field, Json>, c: Common, origin: KeyOrigin)
    requires Absent(fields, Excluded(status)) && !status.ProjectSelectedStatus? && !status.KeyCreateStartedStatus?
    requires KeyOriginField in fields && fields[KeyOriginField] == Str(KeyOriginText(origin))
    requires AfterKey(status, fields, c, origin).Some?
    ensures CarriesProgress(fields, AfterKey(status, fields, c, origin).value)
  {
    AfterKeyStatus(status, fields, c, origin);
    hide Promoted, StringField, PoolOf, CarriesProgress, Absent, Excluded, IsMarker, IsDriveId, IsValidPool, KeyOriginText, ShareOriginText;
    hide StatusOfProgress, IsValidProgress, ProgressFields;
    StringFieldStored(fields, CreationMarkerField);
    StringFieldStored(fields, SpreadsheetIdField);
    OriginInverse(fields);
    ListsInverse(fields, c);
    var p := AfterKey(status, fields, c, origin).value;
    StoredFields(fields, p, origin);
    CarriedExactly(fields, p);
  }

  predicate HoldsText(fields: map<Field, Json>, f: Field, text: string) {
    f in fields && fields[f] == Str(text)
  }

  lemma StoredFields(fields: map<Field, Json>, p: Progress, origin: KeyOrigin)
    requires !p.ProjectSelected? && !p.KeyCreateStarted? && p.keyOrigin == origin && HoldsText(fields, KeyOriginField, KeyOriginText(origin))
    requires p.SpreadsheetCreateStarted? ==> HoldsText(fields, CreationMarkerField, p.creationMarker)
    requires p.SpreadsheetCreated? || p.SpreadsheetShareStarted? || p.SpreadsheetShared? || p.Complete? ==>
               HoldsText(fields, SpreadsheetIdField, p.spreadsheetId)
    requires p.SpreadsheetShared? || p.Complete? ==> HoldsText(fields, ShareOriginField, ShareOriginText(p.shareOrigin))
    requires p.Complete? && p.pool.Some? ==> PoolField in fields
    ensures forall f :: f in ProgressFields(p) ==> f in fields && (f != PoolField ==> fields[f] == ProgressFields(p)[f])
    ensures p.Complete? && p.pool.Some? ==> PoolField in ProgressFields(p)
  {
    hide KeyOriginText, ShareOriginText, PoolItems;
  }

  /** Every progress field is stored by the status or excluded by it, but for the optional pool. */
  lemma StoredOrExcluded(p: Progress, f: Field)
    requires f in PROGRESS_FIELDS
    ensures f in Excluded(StatusOfProgress(p)) ==> f !in ProgressFields(p)
    ensures f !in Excluded(StatusOfProgress(p)) ==> f in ProgressFields(p) || (f == PoolField && p.Complete?)
  {
  }

  /** A payload that has the fields of the progress and none it must not have carries it exactly. */
  lemma CarriedExactly(fields: map<Field, Json>, p: Progress)
    requires Absent(fields, Excluded(StatusOfProgress(p)))
    requires forall f :: f in ProgressFields(p) ==> f in fields && (f != PoolField ==> fields[f] == ProgressFields(p)[f])
    requires p.Complete? && PoolField in fields ==> PoolField in ProgressFields(p)
    ensures CarriesProgress(fields, p)
  {
    hide ProgressFields, Excluded, StatusOfProgress;
    forall f | f in PROGRESS_FIELDS
      ensures (f in fields <==> f in ProgressFields(p)) && (f in fields && f != PoolField ==> fields[f] == ProgressFields(p)[f])
    {
      StoredOrExcluded(p, f);
    }
  }

  /**
   A payload is accepted only as a valid state whose fields it carries exactly; fields of other names and extra
   fields inside pool entries are all that is ignored. So promoting what was promoted changes nothing.
   */
  lemma AcceptedIsLossless(value: Json)
    requires Validate(value).Some?
    ensures var s := Validate(value).value;
            && IsValidState(s) && value.Object?
            && HasCommon(value.fields, s.common, StatusOfProgress(s.progress)) && CarriesProgress(value.fields, s.progress)
            && Validate(Object(Fields(s))) == Some(s)
  {
    var fields := value.fields;
    CommonInverse(fields);
    var c := ExtractCommon(fields).value;
    ProgressInverse(Promoted(fields, StatusField, StatusOf).value, fields, c);
    LoadsBack(Validate(value).value);
    hide Fields, ExtractCommon, Promoted, ProgressOf, StatusOfProgress, HasCommon, CarriesProgress, IsValidCommon, IsValidProgress;
  }

  /** The version and the texts a record is written with, and the canonical email. */
  lemma StoredTexts(saName: string, projectId: string)
    ensures VERSION == 1
    ensures StatusText(ProjectSelectedStatus) == "project_selected" && StatusText(KeyCreateStartedStatus) == "key_create_started"
    ensures StatusText(KeyReadyStatus) == "key_ready" && StatusText(SpreadsheetCreateStartedStatus) == "spreadsheet_create_started"
    ensures StatusText(SpreadsheetCreatedStatus) == "spreadsheet_created"
    ensures StatusText(SpreadsheetShareStartedStatus) == "spreadsheet_share_started"
    ensures StatusText(SpreadsheetSharedStatus) == "spreadsheet_shared" && StatusText(CompleteStatus) == "complete"
    ensures ModeText(Explicit) == "explicit" && ModeText(Generated) == "generated"
    ensures KeyOriginText(KeyCreated) == "created" && KeyOriginText(KeyReused) == "reused"
    ensures ShareOriginText(ShareFresh) == "fresh" && ShareOriginText(ShareReused) == "reused"
    ensures ServiceAccountEmail(saName, projectId) == saName + ("@" + (projectId + ".iam.gserviceaccount.com"))
  {
    assert saName + "@" + projectId + ".iam.gserviceaccount.com" == saName + ("@" + (projectId + ".iam.gserviceaccount.com"));
  }

  /** An accepted pool says what the payload says, entry by entry, starts with the primary account, and is canonical. */
  lemma PoolCarries(fields: map<Field, Json>, c: Common)
    requires PoolField in fields && PoolOf(fields, c).Some?
    ensures var pool := PoolOf(fields, c).value;
            && pool.Some? && fields[PoolField].Array? && |pool.value| == |fields[PoolField].items| > 0
            && pool.value[0].saName == c.saName && pool.value[0].saEmail == c.saEmail && pool.value[0].keyPath == c.keyPath
            && forall i :: 0 <= i < |pool.value| ==> EntryCarried(fields[PoolField].items[i], pool.value[i], c)
  {
    EntriesCarried(fields[PoolField].items, c);
  }

  predicate EntryCarried(item: Json, e: PoolEntry, c: Common) {
    && item.Object? && e.keyPath != "" && IsGcpName(e.saName) && e.saEmail == ServiceAccountEmail(e.saName, c.projectId)
    && SaNameField in item.fields && item.fields[SaNameField] == Str(e.saName)
    && SaEmailField in item.fields && item.fields[SaEmailField] == Str(e.saEmail)
    && KeyPathField in item.fields && item.fields[KeyPathField] == Str(e.keyPath)
  }

  lemma {:induction false} EntriesCarried(items: seq<Json>, c: Common)
    requires PoolEntries(items, c).Some?
    ensures var pool := PoolEntries(items, c).value;
            |pool| == |items| && forall i :: 0 <= i < |pool| ==> EntryCarried(items[i], pool[i], c)
  {
    if items != [] {
      EntriesCarried(items[1..], c);
      var pool, rest := PoolEntries(items, c).value, PoolEntries(items[1..], c).value;
      assert EntryCarried(items[0], pool[0], c);
      assert forall i :: 1 <= i < |pool| ==> pool[i] == rest[i - 1] && items[i] == items[1..][i - 1];
    }
  }

  /** A state loads back equal exactly when it is valid. */
  lemma LoadsExactly(s: SetupState)
    ensures Validate(Object(Fields(s))) == Some(s) <==> IsValidState(s)
  {
    hide Fields, Validate, IsValidState;
    if Validate(Object(Fields(s))) == Some(s) {
      AcceptedIsLossless(Object(Fields(s)));
    }
    if IsValidState(s) {
      LoadsBack(s);
    }
  }

  // ---- The states the flow writes ----

  /** The choices of a run: the service-account name, the key path, and a title if one was given. */
  datatype Options = Options(saName: string, keyPath: string, spreadsheetTitle: Option<string>)

  const DEFAULT_TITLE_PREFIX := "hikoutei-sync"

  /** A given title wins, then the stored one, then the default. */
  function TitleOf(options: Options, projectId: string, stored: Option<SetupState>): string {
    if options.spreadsheetTitle.Some? then options.spreadsheetTitle.value
    else if stored.Some? then stored.value.common.spreadsheetTitle
    else DEFAULT_TITLE_PREFIX + "-" + projectId
  }

  /** Every builder of the flow: the common fields of the run with what the status carries. */
  function Built(options: Options, projectId: string, mode: ProjectMode, ownerEmail: string, stored: Option<SetupState>,
                 progress: Progress): SetupState {
    SetupState(
      Common(projectId, mode, ownerEmail, options.saName, ServiceAccountEmail(options.saName, projectId), options.keyPath,
             TitleOf(options, projectId, stored)),
      progress)
  }

  /** What the flow has checked or generated before it writes a status. */
  ghost predicate FromRun(progress: Progress, c: Common) {
    match progress
    case KeyCreateStarted(marker, baseline) =>
      IsMarker(marker) && exists stdout :: ReadsAs(stdout, c.projectId, c.saEmail, baseline)
    case SpreadsheetCreateStarted(marker, _) => IsMarker(marker)
    case SpreadsheetCreated(id, _) => IsDriveId(id)
    case SpreadsheetShareStarted(id, _) => IsDriveId(id)
    case SpreadsheetShared(id, _, _) => IsDriveId(id)
    case Complete(id, _, _, pool) => IsDriveId(id) && (pool.Some? ==> IsValidPool(pool.value, c))
    case _ => true
  }

  lemma GcpNameNoSlash(s: string)
    requires IsGcpName(s)
    ensures NoSlash(s)
  {
    assert forall i :: 0 <= i < |s| ==> s[i] != '/';
  }

  lemma EmailNoSlash(saName: string, projectId: string)
    requires NoSlash(saName) && NoSlash(projectId)
    ensures NoSlash(ServiceAccountEmail(saName, projectId))
  {
    var suffix := ".iam.gserviceaccount.com";
    assert forall i :: 0 <= i < |suffix| ==> suffix[i] != '/';
  }

  /**
   With checked options, every checkpoint the flow writes, whatever the key list it read or the run it resumed,
   is accepted and loads back equal; it does so exactly when the title is not empty.
   */
  lemma WrittenStatesLoad(options: Options, projectId: string, mode: ProjectMode, ownerEmail: string, stored: Option<SetupState>,
                          progress: Progress)
    requires IsGcpName(options.saName) && IsGcpName(projectId) && options.keyPath != "" && ownerEmail != ""
    requires stored.Some? ==> IsValidState(stored.value)
    requires FromRun(progress, Built(options, projectId, mode, ownerEmail, stored, progress).common)
    ensures var s := Built(options, projectId, mode, ownerEmail, stored, progress);
            Validate(Object(Fields(s))) == Some(s) <==> options.spreadsheetTitle != Some("")
  {
    var s := Built(options, projectId, mode, ownerEmail, stored, progress);
    LoadsExactly(s);
    GcpNameNoSlash(options.saName);
    GcpNameNoSlash(projectId);
    EmailNoSlash(options.saName, projectId);
    assert TitleOf(options, projectId, stored) != "" <==> options.spreadsheetTitle != Some("");
    if progress.KeyCreateStarted? {
      var stdout :| ReadsAs(stdout, projectId, s.common.saEmail, progress.keyBaseline);
      ListIsBaseline(stdout, projectId, s.common.saEmail, progress.keyBaseline);
    }
    hide Fields, Validate, IsGcpName, ServiceAccountEmail, IsMarker, IsDriveId, IsValidPool, TitleOf, IsValidKeyBaseline;
  }

  /** The checkpoint of a run in the terms of the flow. */
  function CheckpointOf(s: SetupState): W.Checkpoint
    requires IsValidState(s)
  {
    W.Checkpoint(s.common.projectId, s.common.projectMode,
                 match s.progress
                 case ProjectSelected => W.ProjectSelected
                 case KeyCreateStarted(_, baseline) => W.KeyStarted(baseline)
                 case KeyReady(origin) => W.KeyReady(origin)
                 case SpreadsheetCreateStarted(marker, origin) => W.SheetStarted(marker, origin)
                 case SpreadsheetCreated(id, origin) => W.SheetCreated(id, origin)
                 case SpreadsheetShareStarted(id, origin) => W.ShareStarted(id, origin)
                 case SpreadsheetShared(id, origin, share) => W.Shared(id, origin, share)
                 case Complete(id, origin, share, _) => W.Complete(id, origin, share))
  }

  /** What the next run loads from a stored payload. */
  function Loaded(value: Json): Option<W.Checkpoint> {
    match Validate(value)
    case None => None
    case Some(s) => AcceptedIsLossless(value); Some(CheckpointOf(s))
  }

  /** What a checkpoint of the flow stores; the key marker and the pool are no part of the flow. */
  function ProgressOfStage(stage: W.Stage, keyMarker: Marker, pool: Option<seq<PoolEntry>>): Progress {
    match stage
    case ProjectSelected => ProjectSelected
    case KeyStarted(baseline) => KeyCreateStarted(keyMarker, baseline)
    case KeyReady(origin) => KeyReady(origin)
    case SheetStarted(marker, origin) => SpreadsheetCreateStarted(marker, origin)
    case SheetCreated(id, origin) => SpreadsheetCreated(id, origin)
    case ShareStarted(id, origin) => SpreadsheetShareStarted(id, origin)
    case Shared(id, origin, share) => SpreadsheetShared(id, origin, share)
    case Complete(id, origin, share) => Complete(id, origin, share, pool)
  }

  /** The state a run stores for a checkpoint. */
  function Stored(options: Options, checkpoint: W.Checkpoint, ownerEmail: string, loaded: Option<SetupState>,
                  keyMarker: Marker, pool: Option<seq<PoolEntry>>): SetupState {
    Built(options, checkpoint.projectId, checkpoint.mode, ownerEmail, loaded, ProgressOfStage(checkpoint.stage, keyMarker, pool))
  }

  /**
   In every world a run records, the stored checkpoint is accepted by the next run and tells it exactly what the
   flow recorded, in the same status order; it is accepted exactly when the title is not empty.
   */
  lemma RecordedLoads(setup: W.Setup, w: W.World, options: Options, ownerEmail: string, loaded: Option<SetupState>,
                      keyMarker: Marker, pool: Option<seq<PoolEntry>>)
    requires W.Consistent(setup, w) && w.disk.Some?
    requires setup.emailOf(w.disk.value.projectId) == ServiceAccountEmail(options.saName, w.disk.value.projectId)
    requires IsGcpName(options.saName) && options.keyPath != "" && ownerEmail != ""
    requires loaded.Some? ==> IsValidState(loaded.value)
    requires pool.Some? ==> IsValidPool(pool.value, Stored(options, w.disk.value, ownerEmail, loaded, keyMarker, pool).common)
    ensures var s := Stored(options, w.disk.value, ownerEmail, loaded, keyMarker, pool);
            && (Validate(Object(Fields(s))) == Some(s) <==> options.spreadsheetTitle != Some(""))
            && (options.spreadsheetTitle != Some("") ==> Loaded(Object(Fields(s))) == w.disk)
            && StatusRank(StatusOfProgress(s.progress)) == W.Rank(w.disk)
  {
    var s := Stored(options, w.disk.value, ownerEmail, loaded, keyMarker, pool);
    StageFromRun(setup, w, keyMarker, pool, s.common);
    StageRank(w.disk.value, keyMarker, pool);
    WrittenStatesLoad(options, w.disk.value.projectId, w.disk.value.mode, ownerEmail, loaded, s.progress);
    if Validate(Object(Fields(s))) == Some(s) {
      AcceptedIsLossless(Object(Fields(s)));
      StageRoundTrip(options, w.disk.value, ownerEmail, loaded, keyMarker, pool);
    }
    hide Fields, Validate, FromRun, ProgressOfStage, CheckpointOf, TitleOf, ServiceAccountEmail, W.Consistent, IsValidPool, IsGcpName, IsValidState;
  }

  /**
   A resumed run stores the common fields the first run stored, whatever stage either is in: a title given again is the
   stored one, and a title not given again is taken from the checkpoint.
   */
  lemma ResumeKeepsCommon(first: Options, again: Options, a: W.Checkpoint, b: W.Checkpoint, ownerEmail: string,
                          loaded: Option<SetupState>, keyMarkers: (Marker, Marker), pools: (Option<seq<PoolEntry>>, Option<seq<PoolEntry>>))
    requires again.saName == first.saName && again.keyPath == first.keyPath && a.projectId == b.projectId && a.mode == b.mode
    requires var stored := Stored(first, a, ownerEmail, loaded, keyMarkers.0, pools.0);
             again.spreadsheetTitle.Some? ==> again.spreadsheetTitle.value == stored.common.spreadsheetTitle
    ensures var stored := Stored(first, a, ownerEmail, loaded, keyMarkers.0, pools.0);
            Stored(again, b, ownerEmail, Some(stored), keyMarkers.1, pools.1).common == stored.common
    ensures loaded.None? ==>
              Stored(first, a, ownerEmail, loaded, keyMarkers.0, pools.0).common.spreadsheetTitle ==
              (match first.spreadsheetTitle case Some(title) => title case None => "hikoutei-sync-" + a.projectId)
  {
    assert "hikoutei-sync" + "-" + a.projectId == "hikoutei-sync-" + a.projectId;
  }

  /** What the flow has checked or generated before it writes a status holds in every recorded world. */
  lemma StageFromRun(setup: W.Setup, w: W.World, keyMarker: Marker, pool: Option<seq<PoolEntry>>, c: Common)
    requires W.BaselineInvariant(setup, w) && w.disk.Some?
    requires c.projectId == w.disk.value.projectId && c.saEmail == setup.emailOf(w.disk.value.projectId)
    requires pool.Some? ==> IsValidPool(pool.value, c)
    ensures FromRun(ProgressOfStage(w.disk.value.stage, keyMarker, pool), c)
  {
    hide ReadsAs, IsValidPool, IsMarker, IsDriveId;
  }

  lemma StageRank(checkpoint: W.Checkpoint, keyMarker: Marker, pool: Option<seq<PoolEntry>>)
    ensures StatusRank(StatusOfProgress(ProgressOfStage(checkpoint.stage, keyMarker, pool))) == W.Rank(Some(checkpoint))
  {
  }

  lemma StageRoundTrip(options: Options, checkpoint: W.Checkpoint, ownerEmail: string, loaded: Option<SetupState>,
                       keyMarker: Marker, pool: Option<seq<PoolEntry>>)
    requires IsValidState(Stored(options, checkpoint, ownerEmail, loaded, keyMarker, pool))
    ensures CheckpointOf(Stored(options, checkpoint, ownerEmail, loaded, keyMarker, pool)) == checkpoint
  {
    hide TitleOf, ServiceAccountEmail, IsValidState;
  }

  /** The eight statuses in their order. */
  function StatusRank(status: Status): nat {
    match status
    case ProjectSelectedStatus => 1
    case KeyCreateStartedStatus => 2
    case KeyReadyStatus => 3
    case SpreadsheetCreateStartedStatus => 4
    case SpreadsheetCreatedStatus => 5
    case SpreadsheetShareStartedStatus => 6
    case SpreadsheetSharedStatus => 7
    case CompleteStatus => 8
  }

  /** The pool starts with the primary account and stays valid with every account that is added. */
  lemma PoolGrows(pool: seq<PoolEntry>, c: Common, saName: string, keyPath: string)
    requires IsValidCommon(c) && IsGcpName(saName) && keyPath != ""
    ensures IsValidPool([PoolEntry(c.saName, c.saEmail, c.keyPath)], c)
    ensures IsValidPool(pool, c) ==> IsValidPool(pool + [PoolEntry(saName, ServiceAccountEmail(saName, c.projectId), keyPath)], c)
  {
    hide IsGcpName, ServiceAccountEmail;
  }
}
