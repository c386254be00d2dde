/** The constant table of identity attributes that campaign exports may show or hide. */
module IdentityAttributes {

  import opened Seqs

  /** An attribute: its key, its display label (`label`) and whether only administrators see it. */
  datatype Attribute = Attribute(key: string, displayLabel: string, adminOnly: bool)

  /** The table, in source order; the NAICS attribute is commented out there and absent here. */
  const Table: seq<Attribute> := [
    Attribute("emailAddress", "Email", false),
    Attribute("givenName", "First Name", false),
    Attribute("familyName", "Last Name", false),
    Attribute("title", "Title", false),
    Attribute("companyName", "Company Name", false),
    Attribute("street", "Address", false),
    Attribute("city", "City", false),
    Attribute("region", "State", false),
    Attribute("postalCode", "Postal Code", false),
    Attribute("country", "Country", false),
    Attribute("phoneNumber", "Phone #", true),
    Attribute("attributes.Industry", "Industry", false),
    Attribute("attributes.Job Function", "Job Function", false)
  ]

  /** The keys of `attrs`, position by position. */
  function Keys(attrs: seq<Attribute>): (ks: seq<string>)
    ensures |ks| == |attrs|
    ensures forall i :: 0 <= i < |attrs| ==> ks[i] == attrs[i].key
  {
    seq(|attrs|, i requires 0 <= i < |attrs| => attrs[i].key)
  }

  function IsAdminOnly(): Attribute -> bool
  {
    (a: Attribute) => a.adminOnly
  }

  /** The keys only administrators may see. */
  const AdminOnlyKeys: seq<string> := ["phoneNumber"]

  /** Only the phone-number row is admin-only. */
  lemma AdminOnlyRows()
    ensures Filter(Table, IsAdminOnly()) == [Table[10]]
  {
    var t := Table;
    assert forall i :: 0 <= i < 10 ==> !IsAdminOnly()(t[i]);
    assert forall i :: 0 <= i < |t[11..]| ==> !IsAdminOnly()(t[11..][i]);
    FilterSingle(t[..10], t[10], t[11..], IsAdminOnly());
    assert t == t[..10] + [t[10]] + t[11..];
  }

  /** The keys of the admin-only attributes, in table order, are exactly `AdminOnlyKeys`. */
  lemma AdminOnlyKeysFromTable()
    ensures Keys(Filter(Table, IsAdminOnly())) == AdminOnlyKeys
  {
    AdminOnlyRows();
  }

  /** The keys in table order. */
  lemma TableKeys()
    ensures Keys(Table) == ["emailAddress", "givenName", "familyName", "title", "companyName", "street",
                            "city", "region", "postalCode", "country", "phoneNumber",
                            "attributes.Industry", "attributes.Job Function"]
  {
  }

  /** The table holds 13 attributes with pairwise-distinct keys, NAICS not among them. */
  lemma TableShape()
    ensures |Table| == 13
    ensures NoDuplicates(Keys(Table))
    ensures "title" in Keys(Table) && "companyName" in Keys(Table)
    ensures "attributes.NAICS Code" !in Keys(Table)
  {
    TableKeys();
  }
}
