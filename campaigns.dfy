/**
 * Campaigns (src/models/Campaign.js and src/controllers/campaignController.js):
 * the schema's validators and defaults, the derived `remainingBudget`,
 * `budgetUtilization` and `duration`, the listing query, the owner-forcing
 * create, the `Object.assign` update, delete, the creative attached to a
 * campaign, and the per-user campaign statistics.
 */
module Campaigns {
  import opened Wrappers
  import opened Text
  import opened Access
  import Events
  import Paging

  type CampaignId = Events.CampaignId

  datatype CampaignStatus = Draft | Active | Paused | Completed

  /** The string stored in the `status` field. */
  function StatusName(s: CampaignStatus): string {
    match s
    case Draft => "draft"
    case Active => "active"
    case Paused => "paused"
    case Completed => "completed"
  }

  /** The `status` enum validator: exactly the four names are accepted. */
  function ParseStatus(name: string): (s: Option<CampaignStatus>)
    ensures s.Some? ==> StatusName(s.value) == name
    ensures s.None? ==> forall t :: StatusName(t) != name
  {
    if name == "draft" then Some(Draft)
    else if name == "active" then Some(Active)
    else if name == "paused" then Some(Paused)
    else if name == "completed" then Some(Completed)
    else None
  }

  // ---------------------------------------------------------------------
  // Documents and their validation

  /** A request body: the campaign fields it carries, absent ones None. Dates are milliseconds. */
  datatype CampaignBody = CampaignBody(
    name: Option<string>,
    status: Option<string>,
    budget: Option<real>,
    spent: Option<real>,
    currency: Option<string>,
    startDate: Option<int>,
    endDate: Option<int>,
    owner: Option<UserId>,
    description: Option<string>,
    isArchived: Option<bool>)

  /** A document's fields before validation: defaults are filled in, required fields may still be missing. */
  datatype Fields = Fields(
    name: Option<string>,
    status: string,
    budget: Option<real>,
    spent: real,
    currency: string,
    startDate: Option<int>,
    endDate: Option<int>,
    owner: Option<UserId>,
    description: Option<string>,
    isArchived: bool)

  /** The `trim: true` setter of `name`. */
  function TrimmedName(name: Option<string>): Option<string> {
    if name.Some? then Some(Trim(name.value)) else None
  }

  /** A new document: the body's fields, with the schema defaults for the ones it leaves out. */
  function WithDefaults(body: CampaignBody): Fields {
    Fields(
      TrimmedName(body.name),
      body.status.GetOr("draft"),
      body.budget,
      body.spent.GetOr(0.0),
      body.currency.GetOr("USD"),
      body.startDate,
      body.endDate,
      body.owner,
      body.description,
      body.isArchived.GetOr(false))
  }

  /** One entry per schema validator that rejects a document. */
  datatype Violation =
    | NameRequired | NameTooLong | StatusNotAllowed | BudgetRequired | BudgetNegative
    | SpentNegative | StartDateRequired | EndDateRequired | EndNotAfterStart
    | OwnerRequired | DescriptionTooLong

  /**
   * The validators of the schema. `required` rejects a missing or empty
   * name; the other validators skip a missing value, except the end-date
   * check, which compares with a missing start date and fails.
   */
  function Violations(f: Fields): set<Violation> {
    (if f.name.None? || f.name.value == "" then {NameRequired} else {})
    + (if f.name.Some? && Utf16Length(f.name.value) > 100 then {NameTooLong} else {})
    + (if ParseStatus(f.status).None? then {StatusNotAllowed} else {})
    + (if f.budget.None? then {BudgetRequired} else if f.budget.value < 0.0 then {BudgetNegative} else {})
    + (if f.spent < 0.0 then {SpentNegative} else {})
    + (if f.startDate.None? then {StartDateRequired} else {})
    + (if f.endDate.None? then {EndDateRequired}
       else if f.startDate.None? || f.endDate.value <= f.startDate.value then {EndNotAfterStart}
       else {})
    + (if f.owner.None? then {OwnerRequired} else {})
    + (if f.description.Some? && Utf16Length(f.description.value) > 500 then {DescriptionTooLong} else {})
  }

  /** A stored campaign. */
  datatype Campaign = Campaign(
    name: string,
    status: CampaignStatus,
    budget: real,
    spent: real,
    currency: string,
    startDate: int,
    endDate: int,
    owner: UserId,
    description: Option<string>,
    isArchived: bool)

  /** What the schema guarantees of every saved campaign. */
  ghost predicate Valid(c: Campaign) {
    && c.name != "" && Utf16Length(c.name) <= 100
    && c.budget >= 0.0 && c.spent >= 0.0
    && c.startDate < c.endDate
    && (c.description.Some? ==> Utf16Length(c.description.value) <= 500)
  }

  function FieldsOf(c: Campaign): Fields {
    Fields(Some(c.name), StatusName(c.status), Some(c.budget), c.spent, c.currency,
      Some(c.startDate), Some(c.endDate), Some(c.owner), c.description, c.isArchived)
  }

  /** Mongoose validation on save: the document is stored exactly when no validator rejects it. */
  function Validate(f: Fields): (r: Result<Campaign, set<Violation>>)
    ensures r.Failure? <==> Violations(f) != {}
    ensures r.Failure? ==> r.error == Violations(f)
    ensures r.Success? ==> Valid(r.value) && FieldsOf(r.value) == f
  {
    var v := Violations(f);
    if v != {} then Failure(v)
    else
      assert NameRequired !in v && StatusNotAllowed !in v && BudgetRequired !in v && StartDateRequired !in v;
      assert EndDateRequired !in v && OwnerRequired !in v && EndNotAfterStart !in v;
      Success(Campaign(f.name.value, ParseStatus(f.status).value, f.budget.value, f.spent, f.currency,
        f.startDate.value, f.endDate.value, f.owner.value, f.description, f.isArchived))
  }

  /**
   * The length limits count UTF-16 code units, as JavaScript's `length`
   * does: a name of 51 characters outside the Basic Multilingual Plane is
   * 102 units long and so too long, although it has only 51 characters.
   */
  lemma WideCharactersCountTwice(f: Fields)
    requires f.name == Some(seq(51, i => '\U{1F600}'))
    ensures NameTooLong in Violations(f)
  {
    var s := f.name.value;
    assert forall i :: 0 <= i < |s| ==> s[i] as int > 0xFFFF;
  }

  /** Every valid campaign passes validation unchanged: validation and `Valid` agree. */
  lemma ValidCampaignsPass(c: Campaign)
    requires Valid(c)
    ensures Validate(FieldsOf(c)) == Success(c)
  {
    var v := Violations(FieldsOf(c));
    assert ParseStatus(StatusName(c.status)) == Some(c.status) by {
      assert ParseStatus(StatusName(c.status)).Some?;
    }
    assert v == {};
  }

  // ---------------------------------------------------------------------
  // Derived fields

  const DayMs: int := 86400000

  /** `remainingBudget`: what is left of the budget. */
  function RemainingBudget(c: Campaign): (r: real)
    ensures r + c.spent == c.budget
  {
    c.budget - c.spent
  }

  /** `budgetUtilization`: spent as a percentage of the budget, 0 without a positive budget. */
  function BudgetUtilization(c: Campaign): (u: real)
    ensures c.budget <= 0.0 ==> u == 0.0
    ensures c.budget > 0.0 ==> u * c.budget == c.spent * 100.0
  {
    if c.budget > 0.0 then c.spent / c.budget * 100.0 else 0.0
  }

  /** A campaign has budget left exactly when at most 100 percent of it is used. */
  lemma UtilizationWithinBudget(c: Campaign)
    requires c.budget > 0.0
    ensures BudgetUtilization(c) <= 100.0 <==> RemainingBudget(c) >= 0.0
  {
    var u := BudgetUtilization(c);
    if u <= 100.0 {
      assert u * c.budget <= 100.0 * c.budget;
    } else {
      assert u * c.budget > 100.0 * c.budget;
    }
  }

  /** `duration`: the number of days from start to end, rounded up (`Math.ceil`). */
  function Duration(c: Campaign): (days: int)
    ensures (days - 1) * DayMs < c.endDate - c.startDate <= days * DayMs
  {
    -((c.startDate - c.endDate) / 86400000)
  }

  /** A valid campaign lasts at least one day. */
  lemma DurationAtLeastOneDay(c: Campaign)
    requires Valid(c)
    ensures Duration(c) >= 1
  {
  }

  // ---------------------------------------------------------------------
  // Create, update, delete

  /** `createCampaign`: the body with `owner` replaced by the requester, validated with the schema defaults. */
  function NewCampaign(body: CampaignBody, p: Principal): (r: Result<Campaign, set<Violation>>)
    ensures r.Failure? <==> Violations(WithDefaults(body.(owner := Some(p.userId)))) != {}
    ensures r.Failure? ==> r.error == Violations(WithDefaults(body.(owner := Some(p.userId))))
    ensures r.Success? ==> Valid(r.value) && r.value.owner == p.userId
    ensures r.Success? ==>
      && Some(r.value.name) == TrimmedName(body.name)
      && Some(r.value.budget) == body.budget
      && Some(r.value.startDate) == body.startDate
      && Some(r.value.endDate) == body.endDate
      && r.value.description == body.description
      && (body.status.Some? ==> StatusName(r.value.status) == body.status.value)
      && (body.spent.Some? ==> r.value.spent == body.spent.value)
      && (body.currency.Some? ==> r.value.currency == body.currency.value)
      && (body.isArchived.Some? ==> r.value.isArchived == body.isArchived.value)
    ensures r.Success? ==>
      && (body.status.None? ==> r.value.status == Draft)
      && (body.spent.None? ==> r.value.spent == 0.0)
      && (body.currency.None? ==> r.value.currency == "USD")
      && (body.isArchived.None? ==> !r.value.isArchived)
  {
    Validate(WithDefaults(body.(owner := Some(p.userId))))
  }

  /** The stored name is the body's name with surrounding white space removed, and trimming it again changes nothing. */
  lemma NewCampaignNameTrimmed(body: CampaignBody, p: Principal)
    requires NewCampaign(body, p).Success?
    ensures body.name.Some?
    ensures NewCampaign(body, p).value.name == Trim(body.name.value)
    ensures Trim(NewCampaign(body, p).value.name) == NewCampaign(body, p).value.name
  {
    TrimIdempotent(body.name.value);
  }

  /** Whatever owner the body names, the created campaign belongs to the requester. */
  lemma CreateIgnoresBodyOwner(body: CampaignBody, owner: Option<UserId>, p: Principal)
    ensures NewCampaign(body.(owner := owner), p) == NewCampaign(body, p)
  {
    assert body.(owner := owner).(owner := Some(p.userId)) == body.(owner := Some(p.userId));
  }

  /** `Object.assign(campaign, body)`: every field the body carries overwrites the document's (the name through its trimming setter). */
  function Patched(f: Fields, body: CampaignBody): Fields {
    Fields(
      if body.name.Some? then TrimmedName(body.name) else f.name,
      body.status.GetOr(f.status),
      if body.budget.Some? then body.budget else f.budget,
      body.spent.GetOr(f.spent),
      body.currency.GetOr(f.currency),
      if body.startDate.Some? then body.startDate else f.startDate,
      if body.endDate.Some? then body.endDate else f.endDate,
      if body.owner.Some? then body.owner else f.owner,
      if body.description.Some? then body.description else f.description,
      body.isArchived.GetOr(f.isArchived))
  }

  const EmptyBody: CampaignBody := CampaignBody(None, None, None, None, None, None, None, None, None, None)

  /** An empty body changes nothing, and assigning the same body twice is assigning it once. */
  lemma PatchedIdentityAndIdempotent(f: Fields, body: CampaignBody)
    ensures Patched(f, EmptyBody) == f
    ensures Patched(Patched(f, body), body) == Patched(f, body)
  {
    if body.name.Some? {
      TrimIdempotent(body.name.value);
    }
  }

  /** The fields a body leaves out keep their stored values. */
  lemma PatchedKeepsAbsentFields(f: Fields, body: CampaignBody)
    ensures body.name.None? ==> Patched(f, body).name == f.name
    ensures body.status.None? ==> Patched(f, body).status == f.status
    ensures body.budget.None? ==> Patched(f, body).budget == f.budget
    ensures body.spent.None? ==> Patched(f, body).spent == f.spent
    ensures body.currency.None? ==> Patched(f, body).currency == f.currency
    ensures body.startDate.None? ==> Patched(f, body).startDate == f.startDate
    ensures body.endDate.None? ==> Patched(f, body).endDate == f.endDate
    ensures body.owner.None? ==> Patched(f, body).owner == f.owner
    ensures body.description.None? ==> Patched(f, body).description == f.description
    ensures body.isArchived.None? ==> Patched(f, body).isArchived == f.isArchived
  {
  }

  /** The fields a body carries overwrite the stored ones, the name through its trimming setter. */
  lemma PatchedOverwritesGivenFields(f: Fields, body: CampaignBody)
    ensures body.name.Some? ==> Patched(f, body).name == Some(Trim(body.name.value))
    ensures body.status.Some? ==> Patched(f, body).status == body.status.value
    ensures body.budget.Some? ==> Patched(f, body).budget == body.budget
    ensures body.spent.Some? ==> Patched(f, body).spent == body.spent.value
    ensures body.currency.Some? ==> Patched(f, body).currency == body.currency.value
    ensures body.startDate.Some? ==> Patched(f, body).startDate == body.startDate
    ensures body.endDate.Some? ==> Patched(f, body).endDate == body.endDate
    ensures body.owner.Some? ==> Patched(f, body).owner == body.owner
    ensures body.description.Some? ==> Patched(f, body).description == body.description
    ensures body.isArchived.Some? ==> Patched(f, body).isArchived == body.isArchived.value
  {
  }

  /** The result of `updateCampaign` once access is granted: the assigned document, validated again by `save`. */
  function UpdatedCampaign(c: Campaign, body: CampaignBody): (r: Result<Campaign, set<Violation>>)
    ensures r.Failure? <==> Violations(Patched(FieldsOf(c), body)) != {}
    ensures r.Failure? ==> r.error == Violations(Patched(FieldsOf(c), body))
    ensures r.Success? ==> Valid(r.value) && FieldsOf(r.value) == Patched(FieldsOf(c), body)
  {
    Validate(Patched(FieldsOf(c), body))
  }

  /** Updating a valid campaign with an empty body saves it unchanged. */
  lemma EmptyUpdateKeepsCampaign(c: Campaign)
    requires Valid(c)
    ensures UpdatedCampaign(c, EmptyBody) == Success(c)
  {
    PatchedIdentityAndIdempotent(FieldsOf(c), EmptyBody);
    ValidCampaignsPass(c);
  }

  /** Why a campaign operation fails: an access rule, or a validator. */
  datatype CampaignError = Denied(denial: Denial) | Invalid(violations: set<Violation>)

  /** The creative `createCreative` stores: the body's fields with `campaign` set to the campaign in the path. */
  function CreativeFor(body: map<string, string>, id: CampaignId): (creative: map<string, string>)
    ensures "campaign" in creative && creative["campaign"] == id
    ensures forall k :: k in body && k != "campaign" ==> k in creative && creative[k] == body[k]
    ensures forall k :: k in creative ==> k in body || k == "campaign"
  {
    body["campaign" := id]
  }

  /** A campaign document being updated in place. */
  class CampaignDocument {
    var fields: Fields

    constructor (c: Campaign)
      ensures fields == FieldsOf(c)
    {
      fields := FieldsOf(c);
    }

    /** `Object.assign(campaign, req.body)`. */
    method Assign(body: CampaignBody)
      modifies this
      ensures fields == Patched(old(fields), body)
    {
      fields := Patched(fields, body);
    }
  }

  /** The owner of a stored campaign, None when there is no such campaign (`findById` gives null). */
  function OwnerOf(campaigns: map<CampaignId, Campaign>, id: CampaignId): Option<UserId> {
    if id in campaigns then Some(campaigns[id].owner) else None
  }

  /** The answer of `getCampaignById`: the campaign and the creatives that belong to it. */
  datatype CampaignDetail = CampaignDetail(campaign: Campaign, creatives: seq<map<string, string>>)

  /** `Creative.find({ campaign: id })`: the creatives whose `campaign` is `id`. */
  predicate BelongsTo(creative: map<string, string>, id: CampaignId) {
    "campaign" in creative && creative["campaign"] == id
  }

  /** The campaign and creative collections. */
  class CampaignStore {
    var campaigns: map<CampaignId, Campaign>
    var creatives: seq<map<string, string>>

    /** Every stored campaign passed validation. */
    ghost predicate AllValid()
      reads this
    {
      forall id :: id in campaigns ==> Valid(campaigns[id])
    }

    constructor ()
      ensures campaigns == map[] && creatives == [] && AllValid()
    {
      campaigns := map[];
      creatives := [];
    }

    /** `getCampaignById`: 404 for a missing campaign, then 403 unless admin or owner, then the campaign and its creatives. */
    function Get(id: CampaignId, p: Principal): (r: Result<CampaignDetail, Denial>)
      reads this
      ensures r.Failure? <==> CampaignAccess(OwnerOf(campaigns, id), p).Some?
      ensures r.Failure? ==> r.error == CampaignAccess(OwnerOf(campaigns, id), p).value
      ensures r.Success? ==> id in campaigns && r.value.campaign == campaigns[id]
      ensures r.Success? ==> forall c :: c in r.value.creatives <==> c in creatives && BelongsTo(c, id)
    {
      match CampaignAccess(OwnerOf(campaigns, id), p)
      case Some(d) => Failure(d)
      case None => Success(CampaignDetail(campaigns[id], Paging.Filter(creatives, c => BelongsTo(c, id))))
    }

    /** `createCampaign` under a fresh id. */
    method Create(id: CampaignId, body: CampaignBody, p: Principal) returns (r: Result<Campaign, set<Violation>>)
      requires id !in campaigns && AllValid()
      modifies this
      ensures r == NewCampaign(body, p) && AllValid()
      ensures r.Success? ==> campaigns == old(campaigns)[id := r.value]
      ensures r.Failure? ==> campaigns == old(campaigns)
      ensures creatives == old(creatives)
    {
      r := NewCampaign(body, p);
      if r.Success? {
        campaigns := campaigns[id := r.value];
      }
    }

    /** `updateCampaign`: the access check, then assign and save; nothing is stored when a validator fails. */
    method Update(id: CampaignId, body: CampaignBody, p: Principal) returns (r: Result<Campaign, CampaignError>)
      requires AllValid()
      modifies this
      ensures AllValid() && creatives == old(creatives)
      ensures var access := CampaignAccess(OwnerOf(old(campaigns), id), p);
        && (access.Some? ==> r == Failure(Denied(access.value)) && campaigns == old(campaigns))
        && (access.None? ==> match UpdatedCampaign(old(campaigns)[id], body)
             case Success(c) => r == Success(c) && campaigns == old(campaigns)[id := c]
             case Failure(v) => r == Failure(Invalid(v)) && campaigns == old(campaigns))
    {
      var access := CampaignAccess(OwnerOf(campaigns, id), p);
      if access.Some? {
        return Failure(Denied(access.value));
      }
      var doc := new CampaignDocument(campaigns[id]);
      doc.Assign(body);
      var saved := Validate(doc.fields);
      if saved.Failure? {
        return Failure(Invalid(saved.error));
      }
      campaigns := campaigns[id := saved.value];
      r := Success(saved.value);
    }

    /** `deleteCampaign`: the access check, then removal. */
    method Delete(id: CampaignId, p: Principal) returns (r: Option<Denial>)
      requires AllValid()
      modifies this
      ensures AllValid() && creatives == old(creatives)
      ensures r == CampaignAccess(OwnerOf(old(campaigns), id), p)
      ensures r.None? ==> campaigns == old(campaigns) - {id}
      ensures r.Some? ==> campaigns == old(campaigns)
    {
      r := CampaignAccess(OwnerOf(campaigns, id), p);
      if r.None? {
        campaigns := campaigns - {id};
      }
    }

    /** `createCreative`: the access check, then a creative bound to this campaign whatever the body says. */
    method AddCreative(id: CampaignId, body: map<string, string>, p: Principal) returns (r: Result<map<string, string>, Denial>)
      modifies this
      ensures campaigns == old(campaigns)
      ensures var access := CampaignAccess(OwnerOf(campaigns, id), p);
        && (access.Some? ==> r == Failure(access.value) && creatives == old(creatives))
        && (access.None? ==> r == Success(CreativeFor(body, id)) && creatives == old(creatives) + [r.value])
    {
      var access := CampaignAccess(OwnerOf(campaigns, id), p);
      if access.Some? {
        return Failure(access.value);
      }
      var creative := CreativeFor(body, id);
      creatives := creatives + [creative];
      r := Success(creative);
    }
  }

  // ---------------------------------------------------------------------
  // The listing

  /** The `query` object `getAllCampaigns` builds; a None field is a key it does not set. */
  datatype CampaignQuery = CampaignQuery(owner: Option<UserId>, status: Option<string>, nameSearch: Option<string>, isArchived: Option<bool>)

  /** The listing query for `p`: own campaigns unless admin, the status and name filters only when given, never archived ones. */
  ghost predicate IsListQuery(q: CampaignQuery, p: Principal, status: Option<string>, search: Option<string>) {
    && q.isArchived == Some(false)
    && q.owner == (if IsAdmin(p) then None else Some(p.userId))
    && q.status == (if Paging.Given(status) then status else None)
    && q.nameSearch == (if Paging.Given(search) then search else None)
  }

  /** The query building of `getAllCampaigns`. */
  method ListQuery(p: Principal, status: Option<string>, search: Option<string>) returns (q: CampaignQuery)
    ensures IsListQuery(q, p, status, search)
  {
    q := CampaignQuery(None, None, None, None);
    if p.role != "admin" {
      q := q.(owner := Some(p.userId));
    }
    if Paging.Given(status) {
      q := q.(status := status);
    }
    if Paging.Given(search) {
      q := q.(nameSearch := search);
    }
    q := q.(isArchived := Some(false));
  }

  /**
   * Whether `find(query)` selects a campaign. The case-insensitive regular
   * expression on the name is the parameter `nameMatches(pattern, name)`.
   */
  predicate Selects(q: CampaignQuery, c: Campaign, nameMatches: (string, string) -> bool) {
    && (q.owner.Some? ==> c.owner == q.owner.value)
    && (q.status.Some? ==> StatusName(c.status) == q.status.value)
    && (q.nameSearch.Some? ==> nameMatches(q.nameSearch.value, c.name))
    && (q.isArchived.Some? ==> c.isArchived == q.isArchived.value)
  }

  /**
   * The listing shows a campaign exactly when it is not archived, belongs
   * to the requester (or the requester is an admin), and passes the status
   * and name filters that were given.
   */
  lemma ListingSelectsExactly(q: CampaignQuery, p: Principal, status: Option<string>, search: Option<string>,
                              c: Campaign, nameMatches: (string, string) -> bool)
    requires IsListQuery(q, p, status, search)
    ensures Selects(q, c, nameMatches) <==>
      && !c.isArchived
      && (IsAdmin(p) || c.owner == p.userId)
      && (Paging.Given(status) ==> StatusName(c.status) == status.value)
      && (Paging.Given(search) ==> nameMatches(search.value, c.name))
  {
  }

  /**
   * Every campaign on a page of `getAllCampaigns` is an unarchived campaign
   * of the collection that the requester owns (or any, for an administrator),
   * and the page holds at most `limit` of them.
   */
  lemma ListedCampaignsVisible(all: seq<Campaign>, q: CampaignQuery, p: Principal, status: Option<string>,
                               search: Option<string>, nameMatches: (string, string) -> bool, r: Paging.PageRequest)
    requires IsListQuery(q, p, status, search)
    requires Paging.List(all, c => Selects(q, c, nameMatches), r).Success?
    ensures var listing := Paging.List(all, c => Selects(q, c, nameMatches), r).value;
      && (r.limit > 0 ==> |listing.items| <= r.limit)
      && forall k :: 0 <= k < |listing.items| ==>
           listing.items[k] in all && !listing.items[k].isArchived && (IsAdmin(p) || listing.items[k].owner == p.userId)
  {
    var listing := Paging.List(all, c => Selects(q, c, nameMatches), r).value;
    forall k | 0 <= k < |listing.items|
      ensures !listing.items[k].isArchived && (IsAdmin(p) || listing.items[k].owner == p.userId)
    {
      ListingSelectsExactly(q, p, status, search, listing.items[k], nameMatches);
    }
  }

  // ---------------------------------------------------------------------
  // Statistics

  datatype CampaignTotals = CampaignTotals(totalCampaigns: nat, activeCampaigns: nat, totalBudget: real, totalSpent: real)

  /** The reply when the `$group` stage produces no document. */
  const NoCampaigns: CampaignTotals := CampaignTotals(0, 0, 0.0, 0.0)

  /** The `$group` accumulators over a sequence of campaigns: a count, a conditional count, two sums. */
  function Totals(cs: seq<Campaign>): (t: CampaignTotals)
    ensures t.totalCampaigns == |cs|
    ensures t.activeCampaigns <= t.totalCampaigns
  {
    if cs == [] then NoCampaigns
    else
      var rest := Totals(cs[1..]);
      CampaignTotals(rest.totalCampaigns + 1,
        rest.activeCampaigns + (if cs[0].status == Active then 1 else 0),
        rest.totalBudget + cs[0].budget,
        rest.totalSpent + cs[0].spent)
  }

  function Plus(a: CampaignTotals, b: CampaignTotals): CampaignTotals {
    CampaignTotals(a.totalCampaigns + b.totalCampaigns, a.activeCampaigns + b.activeCampaigns,
      a.totalBudget + b.totalBudget, a.totalSpent + b.totalSpent)
  }

  /** The totals of two groups of campaigns add up. */
  lemma {:induction false} TotalsAppend(a: seq<Campaign>, b: seq<Campaign>)
    ensures Totals(a + b) == Plus(Totals(a), Totals(b))
  {
    if a == [] {
      assert a + b == b;
    } else {
      assert (a + b)[0] == a[0] && (a + b)[1..] == a[1..] + b;
      TotalsAppend(a[1..], b);
      var active := if a[0].status == Active then 1 else 0;
      var r, ra, rb := Totals(a[1..] + b), Totals(a[1..]), Totals(b);
      assert Totals(a + b) == CampaignTotals(r.totalCampaigns + 1, r.activeCampaigns + active,
        r.totalBudget + a[0].budget, r.totalSpent + a[0].spent);
      assert Totals(a) == CampaignTotals(ra.totalCampaigns + 1, ra.activeCampaigns + active,
        ra.totalBudget + a[0].budget, ra.totalSpent + a[0].spent);
    }
  }

  /** With valid campaigns the budget and spent totals are not negative. */
  lemma {:induction false} TotalsNonNegative(cs: seq<Campaign>)
    requires forall i :: 0 <= i < |cs| ==> Valid(cs[i])
    ensures Totals(cs).totalBudget >= 0.0 && Totals(cs).totalSpent >= 0.0
  {
    if cs != [] {
      assert forall i :: 0 <= i < |cs[1..]| ==> cs[1..][i] == cs[i + 1];
      TotalsNonNegative(cs[1..]);
      assert Valid(cs[0]);
    }
  }

  /**
   * The reply of `getCampaignStats`: the single `$group` document, or the
   * zero fallback when nothing matched; the fallback is exactly the totals
   * of no campaigns, so the reply is always the totals of the matched ones.
   */
  function StatsReply(matched: seq<Campaign>): (r: CampaignTotals)
    ensures r == Totals(matched)
  {
    var grouped := if matched == [] then None else Some(Totals(matched));
    grouped.GetOr(NoCampaigns)
  }

  /**
   * The statistics scope: every campaign for an administrator, the own ones
   * otherwise; an empty user id is falsy and also leaves the query empty.
   */
  predicate InStatsScope(p: Principal, c: Campaign) {
    IsAdmin(p) || p.userId == "" || c.owner == p.userId
  }

  /** `getCampaignStats` with the owner filter compared as ids. */
  function CampaignStats(all: seq<Campaign>, p: Principal): (r: CampaignTotals)
    ensures r == Totals(Paging.Filter(all, c => InStatsScope(p, c)))
    ensures IsAdmin(p) ==> r == Totals(all)
  {
    var r := StatsReply(Paging.Filter(all, c => InStatsScope(p, c)));
    if IsAdmin(p) then Paging.FilterAll(all, c => InStatsScope(p, c)); r else r
  }

  /** A non-admin's statistics count exactly the campaigns they own. */
  lemma OwnStatsCountOwned(all: seq<Campaign>, p: Principal)
    requires !IsAdmin(p) && p.userId != ""
    ensures CampaignStats(all, p).totalCampaigns == |Paging.Filter(all, (c: Campaign) => c.owner == p.userId)|
  {
    Paging.FilterSame(all, c => InStatsScope(p, c), (c: Campaign) => c.owner == p.userId);
  }

  /**
   * `getCampaignStats` as written: the `$match` of an aggregation is not
   * cast, so the owner filter compares the stored ObjectId with the
   * requester's id string.
   */
  predicate InStatsScopeAsWritten(p: Principal, c: Campaign) {
    IsAdmin(p) || p.userId == "" || Events.ObjectIdValue(c.owner) == Events.StringValue(p.userId)
  }

  function CampaignStatsAsWritten(all: seq<Campaign>, p: Principal): CampaignTotals {
    StatsReply(Paging.Filter(all, c => InStatsScopeAsWritten(p, c)))
  }

  /** As written, a non-admin always gets the zero statistics, even for the campaigns they own. */
  lemma NonAdminStatsAsWrittenAreZero(all: seq<Campaign>, p: Principal)
    requires !IsAdmin(p) && p.userId != ""
    ensures CampaignStatsAsWritten(all, p) == NoCampaigns
  {
    Paging.FilterNone(all, c => InStatsScopeAsWritten(p, c));
  }

  /** A concrete case: an owner of one active campaign is told they have none. */
  lemma StatsFindingExample(c: Campaign)
    requires c.status == Active && c.owner != ""
    ensures CampaignStats([c], Principal(c.owner, "user")) == CampaignTotals(1, 1, c.budget, c.spent)
    ensures CampaignStatsAsWritten([c], Principal(c.owner, "user")) == NoCampaigns
  {
    NonAdminStatsAsWrittenAreZero([c], Principal(c.owner, "user"));
  }
}
