/**
 * The campaign document: its defaults, the date setters, the generated full
 * name, the export field exclusions and the post-save hook that drops the
 * campaign's cached line-item report.
 */
module CampaignSchema {

  import opened Wrappers
  import opened Seqs
  import opened Dates
  import opened IdentityAttributes
  import opened ReportCache

  const DefaultExcludedGAMLineItemIds: seq<string> := []
  const DefaultExcludeFields: seq<string> := ["phoneNumber"]
  const DefaultAllowedLinkTypes: seq<string> := ["Advertising", "(Not Set)"]
  const DefaultMaxIdentities: int := 200

  /** A value assigned to a date field: a `Date` instance, or anything else. */
  datatype DateInput = DateValue(at: Time) | NotADate

  /** The `startDate` setter: a date becomes the start of its day, anything else is unset. */
  function StartDateSetter(v: DateInput): (r: Option<Time>)
    ensures r.None? <==> v.NotADate?
    ensures v.DateValue? ==> r.value <= v.at < r.value + DayMs && r.value % DayMs == 0
  {
    match v
    case DateValue(t) => Some(StartOfDay(t))
    case NotADate => None
  }

  /** The `endDate` setter: a date becomes the end of its day, anything else is unset. */
  function EndDateSetter(v: DateInput): (r: Option<Time>)
    ensures r.None? <==> v.NotADate?
    ensures v.DateValue? ==> r.value - DayMs < v.at <= r.value && (r.value + 1) % DayMs == 0
  {
    match v
    case DateValue(t) => Some(EndOfDay(t))
    case NotADate => None
  }

  /**
   * Assigning a setter's own output again changes nothing, and a date used as
   * both start and end gives a window covering its whole day.
   */
  lemma DateSettersStable(t: Time)
    ensures StartDateSetter(DateValue(StartDateSetter(DateValue(t)).value)) == StartDateSetter(DateValue(t))
    ensures EndDateSetter(DateValue(EndDateSetter(DateValue(t)).value)) == EndDateSetter(DateValue(t))
    ensures EndDateSetter(DateValue(t)).value - StartDateSetter(DateValue(t)).value == DayMs - 1
  {
    DayBoundsIdempotent(t);
  }

  /** The date part of the full name; `format` renders a date as 'MMM Do, YYYY'. */
  function DateName(startDate: Option<Time>, endDate: Option<Time>, format: Time -> string): (d: string)
    ensures startDate.Some? && endDate.Some? ==> d == format(startDate.value) + " to " + format(endDate.value)
    ensures startDate.Some? && endDate.None? ==> d == "'Indefinite, starting " + format(startDate.value) + "'"
    ensures startDate.None? && endDate.Some? ==> d == "Until " + format(endDate.value)
    ensures startDate.None? && endDate.None? ==> d == "Indefinite"
  {
    if startDate.Some? && endDate.Some? then format(startDate.value) + " to " + format(endDate.value)
    else if startDate.Some? then "'Indefinite, starting " + format(startDate.value) + "'"
    else if endDate.Some? then "Until " + format(endDate.value)
    else "Indefinite"
  }

  /** The campaign-name part: `": " + name` for a non-empty name, else nothing. */
  function NamePart(name: Option<string>): (p: string)
    ensures name.Some? && name.value != "" ==> p == ": " + name.value
    ensures name.None? || name.value == "" ==> p == ""
  {
    if name.Some? && name.value != "" then ": " + name.value else ""
  }

  /** `createFullName`: customer name, campaign name, then the date part in parentheses. */
  function CreateFullName(customerName: string, name: Option<string>, startDate: Option<Time>,
                          endDate: Option<Time>, format: Time -> string): (n: string)
    ensures |n| == |customerName| + |NamePart(name)| + |DateName(startDate, endDate, format)| + 3
    ensures n[..|customerName|] == customerName
    ensures n[|customerName|..|customerName| + |NamePart(name)|] == NamePart(name)
    ensures n[|customerName| + |NamePart(name)|..|n| - |DateName(startDate, endDate, format)| - 1] == " ("
    ensures n[|n| - |DateName(startDate, endDate, format)| - 1..|n| - 1] == DateName(startDate, endDate, format)
    ensures n[|n| - 1] == ')'
  {
    customerName + NamePart(name) + " (" + DateName(startDate, endDate, format) + ")"
  }

  function NotTitleNorCompany(): Attribute -> bool
  {
    (a: Attribute) => a.key != "title" && a.key != "companyName"
  }

  /** The field list used for editorial and PR campaigns. */
  const EditorialExcludeFields: seq<string> :=
    ["emailAddress", "givenName", "familyName", "street", "city", "region", "postalCode", "country",
     "phoneNumber", "attributes.Industry", "attributes.Job Function"]

  /** In a 13-row table whose rows 4 and 5 alone fail `keep`, the filter cuts out those two rows. */
  lemma FilterCutsRowsFourAndFive(t: seq<Attribute>, keep: Attribute -> bool)
    requires |t| == 13
    requires forall i :: 0 <= i < 13 ==> (keep(t[i]) <==> i != 3 && i != 4)
    ensures Filter(t, keep) == t[..3] + t[5..]
  {
    assert forall i :: 0 <= i < |t[..3]| ==> keep(t[..3][i]);
    assert forall i :: 0 <= i < |t[3..5]| ==> !keep(t[3..5][i]);
    assert forall i :: 0 <= i < |t[5..]| ==> keep(t[5..][i]);
    FilterCutsMiddle(t[..3], t[3..5], t[5..], keep);
    assert t == t[..3] + t[3..5] + t[5..];
  }

  /** Keys commute with cutting rows out. */
  lemma KeysOfCut(t: seq<Attribute>, a: nat, b: nat)
    requires a <= b <= |t|
    ensures Keys(t[..a] + t[b..]) == Keys(t)[..a] + Keys(t)[b..]
  {
  }

  /** Dropping `title` and `companyName` removes the table's fourth and fifth rows. */
  lemma EditorialRows()
    ensures Filter(Table, NotTitleNorCompany()) == Table[..3] + Table[5..]
  {
    EditorialKeep();
    FilterCutsRowsFourAndFive(Table, NotTitleNorCompany());
  }

  /** The keys of the remaining rows. */
  lemma EditorialKeysOfRows()
    ensures Keys(Table[..3] + Table[5..]) == EditorialExcludeFields
  {
    KeysOfCut(Table, 3, 5);
    TableKeys();
  }

  lemma EditorialKeep()
    ensures forall i :: 0 <= i < 13 ==> (NotTitleNorCompany()(Table[i]) <==> i != 3 && i != 4)
  {
  }

  /**
   * The keys of the identity attributes other than `title` and
   * `companyName`, in table order, are exactly `EditorialExcludeFields`.
   */
  lemma EditorialExcludeFieldsFromTable()
    ensures Keys(Filter(Table, NotTitleNorCompany())) == EditorialExcludeFields
  {
    EditorialRows();
    EditorialKeysOfRows();
  }

  /** The editorial list has 11 distinct keys, neither `title` nor `companyName`. */
  lemma EditorialExcludeFieldsDistinct()
    ensures |EditorialExcludeFields| == 11 && NoDuplicates(EditorialExcludeFields)
    ensures "title" !in EditorialExcludeFields && "companyName" !in EditorialExcludeFields
  {
  }

  /** Every attribute key other than `title` and `companyName` is in the editorial list. */
  lemma EditorialExcludeFieldsCover()
    ensures forall i :: 0 <= i < |Table| && NotTitleNorCompany()(Table[i]) ==> Table[i].key in EditorialExcludeFields
  {
    EditorialKeysOfRows();
    KeysOfCut(Table, 3, 5);
    EditorialKeep();
    forall i | 0 <= i < |Table| && NotTitleNorCompany()(Table[i])
      ensures Table[i].key in EditorialExcludeFields
    {
      assert Keys(Table)[i] == Table[i].key;
      if i < 3 {
        assert EditorialExcludeFields[i] == Table[i].key;
      } else {
        assert EditorialExcludeFields[i - 2] == Table[i].key;
      }
    }
  }

  /**
   * `getExcludeFields` of a campaign's email settings; `hasPrTag` says whether
   * one of its tags is named 'PR'.
   */
  function GetExcludeFields(allowedLinkTypes: seq<string>, excludeFields: seq<string>, hasPrTag: bool): (r: seq<string>)
    ensures !hasPrTag && "Editorial" !in allowedLinkTypes ==> r == excludeFields
    ensures hasPrTag || "Editorial" in allowedLinkTypes ==>
      |r| == 11 && NoDuplicates(r) && "title" !in r && "companyName" !in r
      && forall i :: 0 <= i < |Table| && NotTitleNorCompany()(Table[i]) ==> Table[i].key in r
    // In the table's own order.
    ensures hasPrTag || "Editorial" in allowedLinkTypes ==> r == Keys(Filter(Table, NotTitleNorCompany()))
  {
    if !hasPrTag && "Editorial" !in allowedLinkTypes then excludeFields
    else
      EditorialExcludeFieldsDistinct();
      EditorialExcludeFieldsCover();
      EditorialExcludeFieldsFromTable();
      EditorialExcludeFields
  }

  class Campaign {
    const id: string
    var customerId: string
    var name: Option<string>
    var fullName: string
    var startDate: Option<Time>
    var endDate: Option<Time>
    var maxIdentities: int
    /** `adMetrics.excludedGAMLineItemIds`: line items hidden from the report. */
    var excludedGAMLineItemIds: seq<string>
    /** `email.excludeFields` and `email.allowedLinkTypes`. */
    var emailExcludeFields: seq<string>
    var emailAllowedLinkTypes: seq<string>
    /** `ads.excludeFields`. */
    var adsExcludeFields: seq<string>

    /** A new campaign with every schema default in place. */
    constructor (id: string, customerId: string, name: Option<string>)
      ensures this.id == id && this.customerId == customerId && this.name == name
      ensures fullName == "" && startDate == None && endDate == None
      ensures maxIdentities == DefaultMaxIdentities
      ensures excludedGAMLineItemIds == DefaultExcludedGAMLineItemIds
      ensures emailExcludeFields == DefaultExcludeFields && adsExcludeFields == DefaultExcludeFields
      ensures emailAllowedLinkTypes == DefaultAllowedLinkTypes
    {
      this.id := id;
      this.customerId := customerId;
      this.name := name;
      fullName := "";
      startDate, endDate := None, None;
      maxIdentities := DefaultMaxIdentities;
      excludedGAMLineItemIds := DefaultExcludedGAMLineItemIds;
      emailExcludeFields := DefaultExcludeFields;
      adsExcludeFields := DefaultExcludeFields;
      emailAllowedLinkTypes := DefaultAllowedLinkTypes;
    }

    /** `campaign.startDate = v`, through the setter. */
    method AssignStartDate(v: DateInput)
      modifies this`startDate
      ensures startDate == StartDateSetter(v)
    {
      startDate := StartDateSetter(v);
    }

    /** `campaign.endDate = v`, through the setter. */
    method AssignEndDate(v: DateInput)
      modifies this`endDate
      ensures endDate == EndDateSetter(v)
    {
      endDate := EndDateSetter(v);
    }

    /** The pre-validate hook: recompute `fullName` from the customer's name and the campaign fields. */
    method SetFullName(customerName: string, format: Time -> string)
      modifies this`fullName
      ensures fullName == CreateFullName(customerName, name, startDate, endDate, format)
    {
      fullName := CreateFullName(customerName, name, startDate, endDate, format);
    }

    /**
     * The post-save hook: delete this campaign's report key. A failed delete is
     * handed to the error notifier (returned as `noticed`) and goes no further.
     */
    method ClearReportCache(cache: Cache, reachable: bool, now: Time) returns (noticed: Option<StoreError>)
      modifies cache
      ensures reachable ==> noticed == None && cache.entries == Deleted(old(cache.entries), ReportCacheKey(id))
      ensures !reachable ==> noticed == Some(StoreError("DEL", ReportCacheKey(id))) && cache.entries == old(cache.entries)
    {
      var r := cache.Del(ReportCacheKey(id), reachable, now);
      noticed := if r.Failure? then Some(r.error) else None;
    }

    /**
     * `campaign.save()` as an event: pre-validate sets the full name, the
     * document is persisted, then the post-save hook runs. The save resolves to
     * the campaign whether or not the hook's delete succeeded.
     */
    method Save(cache: Cache, customerName: string, format: Time -> string, reachable: bool, now: Time)
      returns (saved: Campaign, noticed: Option<StoreError>)
      modifies this`fullName, cache
      ensures saved == this
      ensures fullName == CreateFullName(customerName, name, startDate, endDate, format)
      ensures reachable ==> noticed == None && cache.entries == Deleted(old(cache.entries), ReportCacheKey(id))
      ensures !reachable ==> noticed.Some? && cache.entries == old(cache.entries)
    {
      SetFullName(customerName, format);
      noticed := ClearReportCache(cache, reachable, now);
      saved := this;
    }
  }
}
