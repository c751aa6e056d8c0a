/**
 * The use-case record: construction with defaults from a JSON object,
 * shallow-merge update, and serialisation to its 18 fields.
 */
module UseCases {
  import opened Results
  import opened Json
  import Text

  datatype UseCase = UseCase(
    caseId: string,
    title: string,
    description: string,
    category: string,
    aiModel: string,
    prompt: string,
    tags: seq<string>,
    status: string,
    createdAt: string,
    updatedAt: string,
    priority: string,
    examples: seq<string>,
    notes: string,
    implementationEffort: real,
    businessBenefit: real,
    implementationStatus: string,
    gridX: Option<real>,
    gridY: Option<real>)

  /** The fields of a record, by JSON key. */
  datatype Key =
    | CaseId | Title | Description | Category | AiModel | Prompt | Tags | Status
    | CreatedAt | UpdatedAt | Priority | Examples | Notes
    | ImplementationEffort | BusinessBenefit | ImplementationStatus | GridX | GridY

  /** The JSON key under which a field is read and written. */
  function Name(k: Key): string {
    match k
    case CaseId => "case_id"
    case Title => "title"
    case Description => "description"
    case Category => "category"
    case AiModel => "aiModel"
    case Prompt => "prompt"
    case Tags => "tags"
    case Status => "status"
    case CreatedAt => "createdAt"
    case UpdatedAt => "updatedAt"
    case Priority => "priority"
    case Examples => "examples"
    case Notes => "notes"
    case ImplementationEffort => "implementationEffort"
    case BusinessBenefit => "businessBenefit"
    case ImplementationStatus => "implementationStatus"
    case GridX => "gridX"
    case GridY => "gridY"
  }

  /** The field a JSON key names, if any; the legacy key `id` names none. */
  function KeyNamed(name: string): (r: Option<Key>)
    ensures r.Some? ==> Name(r.value) == name
  {
    if name == "case_id" then Some(CaseId)
    else if name == "title" then Some(Title)
    else if name == "description" then Some(Description)
    else if name == "category" then Some(Category)
    else if name == "aiModel" then Some(AiModel)
    else if name == "prompt" then Some(Prompt)
    else if name == "tags" then Some(Tags)
    else if name == "status" then Some(Status)
    else if name == "createdAt" then Some(CreatedAt)
    else if name == "updatedAt" then Some(UpdatedAt)
    else if name == "priority" then Some(Priority)
    else if name == "examples" then Some(Examples)
    else if name == "notes" then Some(Notes)
    else if name == "implementationEffort" then Some(ImplementationEffort)
    else if name == "businessBenefit" then Some(BusinessBenefit)
    else if name == "implementationStatus" then Some(ImplementationStatus)
    else if name == "gridX" then Some(GridX)
    else if name == "gridY" then Some(GridY)
    else None
  }

  /** Every field's JSON key names that field and no other. */
  lemma {:induction false} KeyNamedName(k: Key)
    ensures KeyNamed(Name(k)) == Some(k)
  {
    match k
    case CaseId =>
    case Title =>
    case Description =>
    case Category =>
    case AiModel =>
    case Prompt =>
    case Tags =>
    case Status =>
    case CreatedAt =>
    case UpdatedAt =>
    case Priority =>
    case Examples =>
    case Notes =>
    case ImplementationEffort =>
    case BusinessBenefit =>
    case ImplementationStatus =>
    case GridX =>
    case GridY =>
  }

  /** The keys `toJSON` emits, in its order. */
  const Keys: seq<Key> := [
    CaseId, Title, Description, Category, AiModel, Prompt, Tags,
    Status, CreatedAt, UpdatedAt, Priority, Examples, Notes,
    ImplementationEffort, BusinessBenefit, ImplementationStatus, GridX, GridY]

  /** The JSON type each field holds. */
  datatype Kind = TextKind | ListKind | ScoreKind | GridKind

  function KindOf(k: Key): Kind {
    match k
    case Tags | Examples => ListKind
    case ImplementationEffort | BusinessBenefit => ScoreKind
    case GridX | GridY => GridKind
    case _ => TextKind
  }

  /** `v` is a value field `k` can hold (a grid position may be `null`). */
  predicate OfKind(k: Kind, v: Value) {
    match k
    case TextKind => v.Str?
    case ListKind => v.Strings?
    case ScoreKind => v.Num?
    case GridKind => v.Num? || v.Null?
  }

  /** The constructor keeps an input value: present, of the field's type, and truthy. */
  predicate Kept(k: Kind, v: Option<Value>) {
    v.Some? && OfKind(k, v.value) && Truthy(v)
  }

  /** An update writes a patch value: present and of the field's type. */
  predicate Assignable(k: Kind, v: Option<Value>) {
    v.Some? && OfKind(k, v.value)
  }

  /** The value the constructor gives field `k` when the input's is falsy. */
  function Default(k: Key, now: string): Value {
    match k
    case Category => Str("general")
    case Status => Str("active")
    case Priority => Str("medium")
    case ImplementationStatus => Str("backlog")
    case CreatedAt | UpdatedAt => Str(now)
    case _ =>
      match KindOf(k)
      case TextKind => Str("")
      case ListKind => Strings([])
      case ScoreKind => Num(5.0)
      case GridKind => Null
  }

  function GridValue(g: Option<real>): Value {
    if g.Some? then Num(g.value) else Null
  }

  /** The JSON value of field `k` of `u`. */
  function Field(u: UseCase, k: Key): Value {
    match k
    case CaseId => Str(u.caseId)
    case Title => Str(u.title)
    case Description => Str(u.description)
    case Category => Str(u.category)
    case AiModel => Str(u.aiModel)
    case Prompt => Str(u.prompt)
    case Tags => Strings(u.tags)
    case Status => Str(u.status)
    case CreatedAt => Str(u.createdAt)
    case UpdatedAt => Str(u.updatedAt)
    case Priority => Str(u.priority)
    case Examples => Strings(u.examples)
    case Notes => Str(u.notes)
    case ImplementationEffort => Num(u.implementationEffort)
    case BusinessBenefit => Num(u.businessBenefit)
    case ImplementationStatus => Str(u.implementationStatus)
    case GridX => GridValue(u.gridX)
    case GridY => GridValue(u.gridY)
  }

  /** Two records with equal JSON values under every key are equal. */
  lemma FieldsDetermine(u: UseCase, w: UseCase)
    requires forall k: Key :: Field(u, k) == Field(w, k)
    ensures u == w
  {
    assert Field(u, CaseId) == Field(w, CaseId);
    assert Field(u, Title) == Field(w, Title);
    assert Field(u, Description) == Field(w, Description);
    assert Field(u, Category) == Field(w, Category);
    assert Field(u, AiModel) == Field(w, AiModel);
    assert Field(u, Prompt) == Field(w, Prompt);
    assert Field(u, Tags) == Field(w, Tags);
    assert Field(u, Status) == Field(w, Status);
    assert Field(u, CreatedAt) == Field(w, CreatedAt);
    assert Field(u, UpdatedAt) == Field(w, UpdatedAt);
    assert Field(u, Priority) == Field(w, Priority);
    assert Field(u, Examples) == Field(w, Examples);
    assert Field(u, Notes) == Field(w, Notes);
    assert Field(u, ImplementationEffort) == Field(w, ImplementationEffort);
    assert Field(u, BusinessBenefit) == Field(w, BusinessBenefit);
    assert Field(u, ImplementationStatus) == Field(w, ImplementationStatus);
    assert Field(u, GridX) == Field(w, GridX);
    assert Field(u, GridY) == Field(w, GridY);
  }

  /** `generateId()`: `uc_`, the random digits, `_`, then the clock in base 36. */
  function GenerateId(random: string, millis: nat): (id: string)
    ensures |id| > 3 && id[..3] == "uc_"
  {
    "uc_" + random + "_" + Text.Base36(millis)
  }

  /** Ids generated with the same random digits at different milliseconds differ. */
  lemma {:induction false} GeneratedIdsDiffer(random: string, millis: nat, millis': nat)
    requires millis != millis'
    ensures GenerateId(random, millis) != GenerateId(random, millis')
  {
    var prefix := "uc_" + random + "_";
    var a, b := Text.Base36(millis), Text.Base36(millis');
    if prefix + a == prefix + b {
      assert a == (prefix + a)[|prefix|..];
      assert b == (prefix + b)[|prefix|..];
      Text.Base36RoundTrip(millis);
      Text.Base36RoundTrip(millis');
    }
  }

  // `data.k || dflt` for each kind of field; a value of another JSON type counts as absent.
  function TextOr(v: Option<Value>, dflt: string): string {
    if v.Some? && v.value.Str? && v.value.s != "" then v.value.s else dflt
  }

  function ListOr(v: Option<Value>): seq<string> {
    if v.Some? && v.value.Strings? then v.value.items else []
  }

  function ScoreOr(v: Option<Value>): real {
    if v.Some? && v.value.Num? && v.value.n != 0.0 then v.value.n else 5.0
  }

  function GridOr(v: Option<Value>): Option<real> {
    if v.Some? && v.value.Num? && v.value.n != 0.0 then Some(v.value.n) else None
  }

  /** The record is a fixed point of construction: no field holds a falsy value that would be defaulted. */
  predicate WellFormed(u: UseCase) {
    && u.caseId != "" && u.category != "" && u.status != "" && u.priority != ""
    && u.implementationStatus != "" && u.createdAt != "" && u.updatedAt != ""
    && u.implementationEffort != 0.0 && u.businessBenefit != 0.0
    && u.gridX != Some(0.0) && u.gridY != Some(0.0)
  }

  /**
   * `new UseCase(data)`. `now` stands for `new Date().toISOString()`, `millis`
   * for `Date.now()` and `random` for the digits drawn from `Math.random()`.
   * Every field but the key takes the input's value when it is truthy and its
   * default otherwise; the key falls back to the legacy `id`, then to a
   * generated id.
   */
  function New(d: Object, now: string, millis: nat, random: string): (r: UseCase)
    ensures Kept(TextKind, Get(d, "case_id")) ==> r.caseId == Get(d, "case_id").value.s
    ensures !Kept(TextKind, Get(d, "case_id")) && Kept(TextKind, Get(d, "id")) ==> r.caseId == Get(d, "id").value.s
    ensures !Kept(TextKind, Get(d, "case_id")) && !Kept(TextKind, Get(d, "id")) ==>
      r.caseId == GenerateId(random, millis)
    ensures now != "" ==> WellFormed(r)
  {
    var r := UseCase(
      caseId := TextOr(Get(d, "case_id"), TextOr(Get(d, "id"), GenerateId(random, millis))),
      title := TextOr(Get(d, Name(Title)), ""),
      description := TextOr(Get(d, Name(Description)), ""),
      category := TextOr(Get(d, Name(Category)), "general"),
      aiModel := TextOr(Get(d, Name(AiModel)), ""),
      prompt := TextOr(Get(d, Name(Prompt)), ""),
      tags := ListOr(Get(d, Name(Tags))),
      status := TextOr(Get(d, Name(Status)), "active"),
      createdAt := TextOr(Get(d, Name(CreatedAt)), now),
      updatedAt := TextOr(Get(d, Name(UpdatedAt)), now),
      priority := TextOr(Get(d, Name(Priority)), "medium"),
      examples := ListOr(Get(d, Name(Examples))),
      notes := TextOr(Get(d, Name(Notes)), ""),
      implementationEffort := ScoreOr(Get(d, Name(ImplementationEffort))),
      businessBenefit := ScoreOr(Get(d, Name(BusinessBenefit))),
      implementationStatus := TextOr(Get(d, Name(ImplementationStatus)), "backlog"),
      gridX := GridOr(Get(d, Name(GridX))),
      gridY := GridOr(Get(d, Name(GridY))));
    r
  }

  /** Each field of a new record is the input's value when truthy and of the field's type, else the default. */
  lemma {:induction false} NewFields(d: Object, now: string, millis: nat, random: string)
    ensures forall k: Key :: k != CaseId ==>
      Field(New(d, now, millis, random), k) == Initial(d, k, now)
  {
    forall k: Key | k != CaseId ensures Field(New(d, now, millis, random), k) == Initial(d, k, now) {
      if k in {Title, Description, AiModel, Prompt, Notes} {
        NewPlainText(d, now, millis, random, k);
      } else if k in {Category, Status, Priority, ImplementationStatus, CreatedAt, UpdatedAt} {
        NewDefaultedText(d, now, millis, random, k);
      } else {
        NewOther(d, now, millis, random, k);
      }
    }
  }

  lemma NewPlainText(d: Object, now: string, millis: nat, random: string, k: Key)
    requires k in {Title, Description, AiModel, Prompt, Notes}
    ensures Field(New(d, now, millis, random), k) == Initial(d, k, now)
  {
  }

  lemma NewDefaultedText(d: Object, now: string, millis: nat, random: string, k: Key)
    requires k in {Category, Status, Priority, ImplementationStatus, CreatedAt, UpdatedAt}
    ensures Field(New(d, now, millis, random), k) == Initial(d, k, now)
  {
  }

  lemma NewOther(d: Object, now: string, millis: nat, random: string, k: Key)
    requires k in {Tags, Examples, ImplementationEffort, BusinessBenefit, GridX, GridY}
    ensures Field(New(d, now, millis, random), k) == Initial(d, k, now)
  {
  }

  /** The defaulting rule for one field: `data.k || default`. */
  function Initial(d: Object, k: Key, now: string): Value {
    var v := Get(d, Name(k));
    if Kept(KindOf(k), v) then v.value else Default(k, now)
  }

  /** `toJSON()`: exactly the 18 fields, in order, each under its key; no `id` key. */
  function ToJSON(u: UseCase): (o: Object)
    ensures |o| == |Keys|
    ensures forall i :: 0 <= i < |Keys| ==> o[i] == (Name(Keys[i]), Field(u, Keys[i]))
    ensures !HasKey(o, "id")
  {
    [ ("case_id", Str(u.caseId)),
      ("title", Str(u.title)),
      ("description", Str(u.description)),
      ("category", Str(u.category)),
      ("aiModel", Str(u.aiModel)),
      ("prompt", Str(u.prompt)),
      ("tags", Strings(u.tags)),
      ("status", Str(u.status)),
      ("createdAt", Str(u.createdAt)),
      ("updatedAt", Str(u.updatedAt)),
      ("priority", Str(u.priority)),
      ("examples", Strings(u.examples)),
      ("notes", Str(u.notes)),
      ("implementationEffort", Num(u.implementationEffort)),
      ("businessBenefit", Num(u.businessBenefit)),
      ("implementationStatus", Str(u.implementationStatus)),
      ("gridX", GridValue(u.gridX)),
      ("gridY", GridValue(u.gridY)) ]
  }

  /** `UseCase.fromJSON(data)`, which is `new UseCase(data)`. */
  function FromJSON(d: Object, now: string, millis: nat, random: string): (r: UseCase)
    ensures now != "" ==> WellFormed(r)
  {
    New(d, now, millis, random)
  }

  /** `Keys` lists every field exactly once. */
  lemma {:induction false} KeysComplete(k: Key)
    ensures k in Keys
    ensures forall m, n :: 0 <= m < n < |Keys| ==> Keys[m] != Keys[n]
  {
    match k
    case CaseId => assert Keys[0] == k;
    case Title => assert Keys[1] == k;
    case Description => assert Keys[2] == k;
    case Category => assert Keys[3] == k;
    case AiModel => assert Keys[4] == k;
    case Prompt => assert Keys[5] == k;
    case Tags => assert Keys[6] == k;
    case Status => assert Keys[7] == k;
    case CreatedAt => assert Keys[8] == k;
    case UpdatedAt => assert Keys[9] == k;
    case Priority => assert Keys[10] == k;
    case Examples => assert Keys[11] == k;
    case Notes => assert Keys[12] == k;
    case ImplementationEffort => assert Keys[13] == k;
    case BusinessBenefit => assert Keys[14] == k;
    case ImplementationStatus => assert Keys[15] == k;
    case GridX => assert Keys[16] == k;
    case GridY => assert Keys[17] == k;
  }

  /** Every key of a serialised record reads back its field's value. */
  lemma GetSerialised(u: UseCase, k: Key)
    ensures Get(ToJSON(u), Name(k)) == Some(Field(u, k))
  {
    var o := ToJSON(u);
    KeysComplete(k);
    forall m, n | 0 <= m < n < |o| ensures o[m].0 != o[n].0 {
      if o[m].0 == o[n].0 {
        KeyNamedName(Keys[m]);
        KeyNamedName(Keys[n]);
      }
    }
    var i :| 0 <= i < |Keys| && Keys[i] == k;
    GetDistinct(o, i);
  }

  /**
   * Serialising and re-constructing gives back exactly the records that are
   * well formed, whatever clock and random digits the second construction sees.
   */
  lemma {:induction false} RoundTrip(u: UseCase, now: string, millis: nat, random: string)
    requires now != ""
    ensures FromJSON(ToJSON(u), now, millis, random) == u <==> WellFormed(u)
  {
    if WellFormed(u) {
      WellFormedRoundTrips(u, now, millis, random);
    } else {
      IllFormedChanges(u, now, millis, random);
    }
  }

  lemma {:induction false} WellFormedRoundTrips(u: UseCase, now: string, millis: nat, random: string)
    requires WellFormed(u)
    ensures FromJSON(ToJSON(u), now, millis, random) == u
  {
    var o := ToJSON(u);
    var r := FromJSON(o, now, millis, random);
    NewFields(o, now, millis, random);
    forall k: Key ensures Field(r, k) == Field(u, k) {
      GetSerialised(u, k);
      if k != CaseId {
        WellFormedFieldSurvives(u, k, now);
      }
    }
    FieldsDetermine(r, u);
  }

  lemma {:induction false} IllFormedChanges(u: UseCase, now: string, millis: nat, random: string)
    requires now != "" && !WellFormed(u)
    ensures FromJSON(ToJSON(u), now, millis, random) != u
  {
    if u.caseId == "" {
      EmptyKeyChanges(u, now, millis, random);
    } else {
      var k: Key :=
        if u.category == "" then Category
        else if u.status == "" then Status
        else if u.priority == "" then Priority
        else if u.implementationStatus == "" then ImplementationStatus
        else if u.createdAt == "" then CreatedAt
        else if u.updatedAt == "" then UpdatedAt
        else if u.implementationEffort == 0.0 then ImplementationEffort
        else if u.businessBenefit == 0.0 then BusinessBenefit
        else if u.gridX == Some(0.0) then GridX
        else GridY;
      GetSerialised(u, k);
      DefaultedFieldChanges(u, k, now, millis, random);
    }
  }

  /** An empty key is replaced by a generated one. */
  lemma EmptyKeyChanges(u: UseCase, now: string, millis: nat, random: string)
    requires u.caseId == ""
    ensures FromJSON(ToJSON(u), now, millis, random) != u
  {
    var o := ToJSON(u);
    GetSerialised(u, CaseId);
    GetMeaning(o, "id");
    assert FromJSON(o, now, millis, random).caseId[..3] == "uc_";
  }

  /** A field the constructor would default comes back different. */
  lemma DefaultedFieldChanges(u: UseCase, k: Key, now: string, millis: nat, random: string)
    requires k != CaseId
    requires Initial(ToJSON(u), k, now) != Field(u, k)
    ensures FromJSON(ToJSON(u), now, millis, random) != u
  {
    NewFields(ToJSON(u), now, millis, random);
  }

  /** A field of a well-formed record is read back unchanged by the constructor. */
  lemma WellFormedFieldSurvives(u: UseCase, k: Key, now: string)
    requires WellFormed(u) && k != CaseId
    ensures (if Kept(KindOf(k), Some(Field(u, k))) then Field(u, k) else Default(k, now)) == Field(u, k)
  {
  }

  /** A record built by the constructor survives `fromJSON(toJSON(u))` with all 18 fields. */
  lemma ConstructedRoundTrips(d: Object, now: string, millis: nat, random: string,
                              now': string, millis': nat, random': string)
    requires now != "" && now' != ""
    ensures FromJSON(ToJSON(New(d, now, millis, random)), now', millis', random') == New(d, now, millis, random)
  {
    RoundTrip(New(d, now, millis, random), now', millis', random');
  }

  /**
   * `update(data)`: `Object.assign(this, data)`, then `updatedAt` set to now.
   * Every field but `updatedAt` takes the patch's value when the patch has
   * one of the field's type, and keeps its own otherwise; `case_id` and
   * `createdAt` are not protected.
   */
  function Update(u: UseCase, patch: Object, now: string): (r: UseCase)
    ensures r.updatedAt == now
  {
    u.(
      caseId := TextOver(Get(patch, Name(CaseId)), u.caseId),
      title := TextOver(Get(patch, Name(Title)), u.title),
      description := TextOver(Get(patch, Name(Description)), u.description),
      category := TextOver(Get(patch, Name(Category)), u.category),
      aiModel := TextOver(Get(patch, Name(AiModel)), u.aiModel),
      prompt := TextOver(Get(patch, Name(Prompt)), u.prompt),
      tags := ListOver(Get(patch, Name(Tags)), u.tags),
      status := TextOver(Get(patch, Name(Status)), u.status),
      createdAt := TextOver(Get(patch, Name(CreatedAt)), u.createdAt),
      updatedAt := now,
      priority := TextOver(Get(patch, Name(Priority)), u.priority),
      examples := ListOver(Get(patch, Name(Examples)), u.examples),
      notes := TextOver(Get(patch, Name(Notes)), u.notes),
      implementationEffort := ScoreOver(Get(patch, Name(ImplementationEffort)), u.implementationEffort),
      businessBenefit := ScoreOver(Get(patch, Name(BusinessBenefit)), u.businessBenefit),
      implementationStatus := TextOver(Get(patch, Name(ImplementationStatus)), u.implementationStatus),
      gridX := GridOver(Get(patch, Name(GridX)), u.gridX),
      gridY := GridOver(Get(patch, Name(GridY)), u.gridY))
  }

  /** After an update each field but `updatedAt` holds the patch's value if it has one of the field's type, else its own. */
  lemma {:induction false} UpdateFields(u: UseCase, patch: Object, now: string)
    ensures forall k: Key :: k != UpdatedAt ==>
      Field(Update(u, patch, now), k) == Merged(u, patch, k)
  {
    var r := Update(u, patch, now);
    forall k: Key | k != UpdatedAt ensures Field(r, k) == Merged(u, patch, k) {
      match k
      case CaseId =>
      case Title =>
      case Description =>
      case Category =>
      case AiModel =>
      case Prompt =>
      case Tags =>
      case Status =>
      case CreatedAt =>
      case UpdatedAt =>
      case Priority =>
      case Examples =>
      case Notes =>
      case ImplementationEffort =>
      case BusinessBenefit =>
      case ImplementationStatus =>
      case GridX =>
      case GridY =>
    }
  }

  /** The merge rule for one field: the patch's value if it has one of the field's type. */
  function Merged(u: UseCase, patch: Object, k: Key): Value {
    var v := Get(patch, Name(k));
    if Assignable(KindOf(k), v) then v.value else Field(u, k)
  }

  // `Object.assign` for each kind of field: a present value of the field's type replaces it.
  function TextOver(v: Option<Value>, current: string): string {
    if v.Some? && v.value.Str? then v.value.s else current
  }

  function ListOver(v: Option<Value>, current: seq<string>): seq<string> {
    if v.Some? && v.value.Strings? then v.value.items else current
  }

  function ScoreOver(v: Option<Value>, current: real): real {
    if v.Some? && v.value.Num? then v.value.n else current
  }

  function GridOver(v: Option<Value>, current: Option<real>): Option<real> {
    if v.Some? && v.value.Num? then Some(v.value.n)
    else if v.Some? && v.value.Null? then None
    else current
  }
}
