/** The profile page: the address shown in the form, the display name and
    its split back into first and last name, the address sent back, the
    back-office contact lists with their minimum sizes and save checks, and
    the tabs each role sees. */
module Profile {
  import opened Strings

  /** A stored address: free text, or the structured fields (an absent
      field is the empty string). */
  datatype Address = TextAddress(text: string)
                   | FieldAddress(street: string, city: string, state: string, zipCode: string, country: string)

  /** The structured fields in display order. */
  function Fields(a: Address): seq<string>
    requires a.FieldAddress?
  {
    [a.street, a.city, a.state, a.zipCode, a.country]
  }

  predicate Filled(s: string) {
    s != ""
  }

  /** The address text the form shows: free text as it is; the filled
      fields, in order, joined by ", "; nothing when there is no address. */
  method FormatAddress(address: Option<Address>) returns (r: string)
    ensures address.None? ==> r == ""
    ensures address.Some? && address.value.TextAddress? ==> r == address.value.text
    ensures address.Some? && address.value.FieldAddress? ==>
      r == Join(Filter(Fields(address.value), Filled), ", ")
  {
    if address.None? {
      return "";
    }
    var a := address.value;
    if a.TextAddress? {
      return a.text;
    }
    ghost var fs := Fields(a);
    assert fs[1..] == [a.city, a.state, a.zipCode, a.country];
    assert fs[2..] == fs[1..][1..] == [a.state, a.zipCode, a.country];
    assert fs[3..] == fs[2..][1..] == [a.zipCode, a.country];
    assert fs[4..] == fs[3..][1..] == [a.country];
    assert fs[5..] == fs[4..][1..] == [];
    var parts: seq<string> := [];
    if a.country != "" { parts := [a.country] + parts; }
    assert parts == Filter(fs[4..], Filled);
    if a.zipCode != "" { parts := [a.zipCode] + parts; }
    assert parts == Filter(fs[3..], Filled);
    if a.state != "" { parts := [a.state] + parts; }
    assert parts == Filter(fs[2..], Filled);
    if a.city != "" { parts := [a.city] + parts; }
    assert parts == Filter(fs[1..], Filled);
    if a.street != "" { parts := [a.street] + parts; }
    r := Join(parts, ", ");
  }

  /** With every field filled the address reads street, city, state,
      zip code and country, separated by ", ". */
  lemma FormattedAllFields(a: Address)
    requires a.FieldAddress? && a.street != "" && a.city != "" && a.state != ""
    requires a.zipCode != "" && a.country != ""
    ensures Join(Filter(Fields(a), Filled), ", ")
      == a.street + ", " + (a.city + ", " + (a.state + ", " + (a.zipCode + ", " + a.country)))
  {
    var fs := Fields(a);
    FilterAll(fs, Filled);
    var f1, f2, f3, f4 := fs[1..], fs[2..], fs[3..], fs[4..];
    assert f4 == [a.country] && f3[1..] == f4 && f2[1..] == f3 && f1[1..] == f2 && fs[1..] == f1;
    var j4 := a.country;
    assert Join(f4, ", ") == j4;
    var j3 := a.zipCode + ", " + j4;
    assert Join(f3, ", ") == j3;
    var j2 := a.state + ", " + j3;
    assert Join(f2, ", ") == j2;
    var j1 := a.city + ", " + j2;
    assert Join(f1, ", ") == j1;
    assert Join(fs, ", ") == a.street + ", " + j1;
  }

  /** With no field filled the address text is empty. */
  lemma FormattedNoFields(a: Address)
    requires a.FieldAddress? && a.street == "" && a.city == "" && a.state == ""
    requires a.zipCode == "" && a.country == ""
    ensures Join(Filter(Fields(a), Filled), ", ") == ""
  {
    FilterEmptyIff(Fields(a), Filled);
  }

  /** The name shown in the form: first and last name joined by a space,
      trimmed. */
  function DisplayName(firstName: string, lastName: string): string {
    Trim(firstName + " " + lastName)
  }

  /** `name.trim().split(' ')`: the first piece is the first name, the rest
      joined by spaces the last name. */
  function SplitName(name: string): (r: (string, string)) {
    var parts := Split(Trim(name), ' ');
    (parts[0], Join(parts[1..], " "))
  }

  /** Splitting loses nothing: a trimmed name with a space is first name,
      space, last name; one without a space is all first name. */
  lemma SplitNameRoundTrip(name: string)
    ensures var (first, last) := SplitName(name);
      (' ' in Trim(name) ==> first + " " + last == Trim(name))
      && (' ' !in Trim(name) ==> first == Trim(name) && last == "")
      && ' ' !in first
  {
    var t := Trim(name);
    var parts := Split(t, ' ');
    JoinSplit(t, ' ');
    if ' ' !in t {
      SplitWithoutSeparator(t, ' ');
    }
  }

  /** A first name without spaces and a last name without surrounding
      whitespace come back unchanged from display and split. */
  lemma DisplayThenSplit(firstName: string, lastName: string)
    requires firstName != "" && ' ' !in firstName && !IsSpace(firstName[0])
    requires lastName != "" && !IsSpace(lastName[|lastName| - 1])
    ensures SplitName(DisplayName(firstName, lastName)) == (firstName, lastName)
  {
    var s := firstName + " " + lastName;
    assert s[0] == firstName[0] && s[|s| - 1] == lastName[|lastName| - 1];
    TrimOfTrimmed(s);
    TrimIdempotent(s);
    assert DisplayName(firstName, lastName) == s;
    SplitConcat(firstName, lastName, ' ');
    SplitWithoutSeparator(firstName, ' ');
    JoinSplit(lastName, ' ');
    var parts := Split(s, ' ');
    assert parts == [firstName] + Split(lastName, ' ');
    assert parts[1..] == Split(lastName, ' ');
  }

  /** The address sent with a profile update. A non-blank address text
      becomes the street, the other fields kept from the stored structured
      address (empty when there is none). Otherwise the stored address goes
      back as it was, or the empty object when there is none. */
  function RebuildAddress(stored: Option<Address>, text: string): (r: Address)
    ensures !IsBlank(text) ==> r.FieldAddress? && r.street == text
    ensures !IsBlank(text) && stored.Some? && stored.value.FieldAddress? ==>
      r == stored.value.(street := text)
    ensures !IsBlank(text) && !(stored.Some? && stored.value.FieldAddress?) ==>
      r == FieldAddress(text, "", "", "", "")
    ensures IsBlank(text) ==> r == EmptyOr(stored)
  {
    var base := EmptyOr(stored);
    if !IsBlank(text) then
      if base.FieldAddress? then FieldAddress(text, base.city, base.state, base.zipCode, base.country)
      else FieldAddress(text, "", "", "", "")
    else base
  }

  /** `user.address || {}`, the empty object as an address of empty
      fields. */
  function EmptyOr(stored: Option<Address>): Address {
    if stored.None? || stored.value == TextAddress("") then FieldAddress("", "", "", "", "") else stored.value
  }

  /** A blank address text sends the stored structured address back as it
      was; any other text only ever replaces the street. */
  lemma RebuildKeepsFields(stored: Address, text: string)
    requires stored.FieldAddress?
    ensures IsBlank(text) ==> RebuildAddress(Some(stored), text) == stored
    ensures RebuildAddress(Some(stored), text).city == stored.city
      && RebuildAddress(Some(stored), text).state == stored.state
      && RebuildAddress(Some(stored), text).zipCode == stored.zipCode
      && RebuildAddress(Some(stored), text).country == stored.country
  {
  }

  /** The form's round trip: a structured address is shown as its joined
      fields, and sending that text back unedited makes the whole text the
      street while the other fields stay; only a blank text keeps the
      address as it was. */
  lemma FormatThenRebuild(a: Address)
    requires a.FieldAddress?
    ensures var t := Join(Filter(Fields(a), Filled), ", ");
      RebuildAddress(Some(a), t) == if IsBlank(t) then a else a.(street := t)
  {
  }

  /** With every field filled, sending the shown text back unedited puts
      the city, state, zip code and country into the street as well, so
      the address does not come back as it was. */
  lemma ResendCopiesFieldsIntoStreet(a: Address)
    requires a.FieldAddress? && a.street != "" && a.city != "" && a.state != ""
    requires a.zipCode != "" && a.country != ""
    ensures var t := a.street + ", " + (a.city + ", " + (a.state + ", " + (a.zipCode + ", " + a.country)));
      RebuildAddress(Some(a), Join(Filter(Fields(a), Filled), ", ")) == a.(street := t)
    ensures RebuildAddress(Some(a), Join(Filter(Fields(a), Filled), ", ")) != a
  {
    var t := a.street + ", " + (a.city + ", " + (a.state + ", " + (a.zipCode + ", " + a.country)));
    FormattedAllFields(a);
    assert t[|a.street|] == ',';
    BlankIffAllSpace(t);
    assert |t| > |a.street|;
  }

  /** The contact lists as loaded: missing entries up to four emails and
      two mobile numbers are empty strings after the loaded ones. */
  function Padded(xs: seq<string>, n: nat): (r: seq<string>)
    ensures |r| == if |xs| >= n then |xs| else n
    ensures r[..|xs|] == xs
    ensures forall i :: |xs| <= i < |r| ==> r[i] == ""
  {
    if |xs| >= n then xs else xs + seq(n - |xs|, _ => "")
  }

  /** A character allowed on either side of the `@` of an email. */
  predicate Plain(t: string) {
    forall j :: 0 <= j < |t| ==> !IsSpace(t[j]) && t[j] != '@'
  }

  /** The part after the `@`: plain text with a dot that is neither its
      first nor its last character. */
  predicate Domain(d: string) {
    Plain(d) && exists k :: 1 <= k < |d| - 1 && d[k] == '.'
  }

  /** `/^[^\s@]+@[^\s@]+\.[^\s@]+$/` */
  predicate EmailPattern(s: string) {
    exists i :: 0 < i < |s| && s[i] == '@' && Plain(s[..i]) && Domain(s[i + 1..])
  }

  /** Every address of the shape the pattern describes matches it... */
  lemma EmailPatternAccepts(local: string, host: string, tld: string)
    requires local != "" && host != "" && tld != ""
    requires Plain(local) && Plain(host) && Plain(tld)
    ensures EmailPattern(local + "@" + host + "." + tld)
  {
    var s := local + "@" + host + "." + tld;
    var i := |local|;
    var d := host + "." + tld;
    assert s[..i] == local;
    assert s[i + 1..] == d;
    assert d[|host|] == '.';
    assert Plain(d) by {
      forall j | 0 <= j < |d| ensures !IsSpace(d[j]) && d[j] != '@' {
        if j < |host| { assert d[j] == host[j]; }
        else if j > |host| { assert d[j] == tld[j - |host| - 1]; }
      }
    }
  }

  /** ...and a match has exactly one `@`, no whitespace, and a non-empty
      name before the `@`. */
  lemma EmailPatternShape(s: string)
    requires EmailPattern(s)
    ensures exists i :: 0 < i < |s| && s[i] == '@' && forall j :: 0 <= j < |s| && j != i ==> s[j] != '@'
    ensures forall j :: 0 <= j < |s| ==> !IsSpace(s[j])
  {
    var i :| 0 < i < |s| && s[i] == '@' && Plain(s[..i]) && Domain(s[i + 1..]);
    forall j | 0 <= j < |s| && j != i ensures s[j] != '@' && !IsSpace(s[j]) {
      if j < i { assert s[..i][j] == s[j]; } else { assert s[i + 1..][j - i - 1] == s[j]; }
    }
  }

  /** Every entry passes the check. */
  predicate AllPass(xs: seq<string>, ok: string -> bool) {
    forall j :: 0 <= j < |xs| ==> ok(xs[j])
  }

  /** `x` is the first entry failing the check. */
  predicate FirstFailure(xs: seq<string>, x: string, ok: string -> bool) {
    exists k :: 0 <= k < |xs| && xs[k] == x && !ok(x) && AllPass(xs[..k], ok)
  }

  /** How saving the back-office contacts ended. */
  datatype SaveResult = TooFewEmails | TooFewMobiles | InvalidEmail(email: string)
                      | InvalidMobile(number: string) | Send(emails: seq<string>, mobiles: seq<string>)

  /** A mobile number the save accepts. */
  predicate LongEnough(n: string) {
    |n| >= 10
  }

  /** `handleBackOfficeSettingsSave`'s checks: the non-blank entries are
      counted, then each email is matched against the pattern and each
      number checked for length, stopping at the first failure; only the
      non-blank entries are sent. */
  method SaveSettings(emails: seq<string>, mobiles: seq<string>) returns (out: SaveResult)
    ensures out == TooFewEmails <==> |NonBlank(emails)| < 4
    ensures out == TooFewMobiles <==> |NonBlank(emails)| >= 4 && |NonBlank(mobiles)| < 2
    ensures out.InvalidEmail? ==> (|NonBlank(emails)| >= 4 && |NonBlank(mobiles)| >= 2
      && FirstFailure(NonBlank(emails), out.email, EmailPattern))
    ensures out.InvalidMobile? ==> (AllPass(NonBlank(emails), EmailPattern)
      && FirstFailure(NonBlank(mobiles), out.number, LongEnough))
    ensures out.Send? <==> (|NonBlank(emails)| >= 4 && |NonBlank(mobiles)| >= 2
      && AllPass(NonBlank(emails), EmailPattern) && AllPass(NonBlank(mobiles), LongEnough))
    ensures out.Send? ==> out.emails == NonBlank(emails) && out.mobiles == NonBlank(mobiles)
  {
    var validEmails := NonBlank(emails);
    var validNumbers := NonBlank(mobiles);
    if |validEmails| < 4 {
      return TooFewEmails;
    }
    if |validNumbers| < 2 {
      return TooFewMobiles;
    }
    var badEmail := FirstFailing(validEmails, EmailPattern);
    if badEmail.Some? {
      return InvalidEmail(badEmail.value);
    }
    var badNumber := FirstFailing(validNumbers, LongEnough);
    if badNumber.Some? {
      return InvalidMobile(badNumber.value);
    }
    out := Send(validEmails, validNumbers);
  }

  /** The checking loop of the save: the first entry failing `ok`, if
      any. */
  method FirstFailing(xs: seq<string>, ok: string -> bool) returns (bad: Option<string>)
    ensures bad.None? <==> AllPass(xs, ok)
    ensures bad.Some? ==> FirstFailure(xs, bad.value, ok)
  {
    var k := 0;
    while k < |xs|
      invariant 0 <= k <= |xs|
      invariant AllPass(xs[..k], ok)
    {
      if !ok(xs[k]) {
        assert FirstFailure(xs, xs[k], ok);
        return Some(xs[k]);
      }
      assert xs[..k + 1] == xs[..k] + [xs[k]];
      k := k + 1;
    }
    assert xs[..k] == xs;
    bad := None;
  }

  /** The back-office contact lists being edited. */
  class BackOfficeSettings {
    var emails: seq<string>
    var mobiles: seq<string>

    /** The form always offers at least four email and two mobile
        fields. */
    predicate Valid()
      reads this
    {
      |emails| >= 4 && |mobiles| >= 2
    }

    constructor ()
      ensures Valid() && emails == ["", "", "", ""] && mobiles == ["", ""]
    {
      emails := ["", "", "", ""];
      mobiles := ["", ""];
    }

    /** Settings fetched from the backend; a failed fetch changes
        nothing. */
    method Load(success: bool, loadedEmails: seq<string>, loadedMobiles: seq<string>)
      requires Valid()
      modifies this
      ensures Valid()
      ensures success ==> emails == Padded(loadedEmails, 4) && mobiles == Padded(loadedMobiles, 2)
      ensures !success ==> emails == old(emails) && mobiles == old(mobiles)
    {
      if success {
        emails := Padded(loadedEmails, 4);
        mobiles := Padded(loadedMobiles, 2);
      }
    }

    method ChangeEmail(index: int, value: string)
      requires Valid() && 0 <= index < |emails|
      modifies this`emails
      ensures Valid() && emails == old(emails)[index := value]
    {
      emails := emails[index := value];
    }

    method ChangeMobile(index: int, value: string)
      requires Valid() && 0 <= index < |mobiles|
      modifies this`mobiles
      ensures Valid() && mobiles == old(mobiles)[index := value]
    {
      mobiles := mobiles[index := value];
    }

    method AddEmail()
      requires Valid()
      modifies this`emails
      ensures Valid() && emails == old(emails) + [""]
    {
      emails := emails + [""];
    }

    method AddMobile()
      requires Valid()
      modifies this`mobiles
      ensures Valid() && mobiles == old(mobiles) + [""]
    {
      mobiles := mobiles + [""];
    }

    /** Removal is refused, reporting false, at four emails. */
    method RemoveEmail(index: int) returns (removed: bool)
      requires Valid()
      modifies this`emails
      ensures Valid()
      ensures removed <==> |old(emails)| > 4
      ensures emails == if removed then WithoutIndex(old(emails), index) else old(emails)
    {
      removed := |emails| > 4;
      if removed {
        emails := WithoutIndex(emails, index);
      }
    }

    /** Removal is refused, reporting false, at two mobile numbers. */
    method RemoveMobile(index: int) returns (removed: bool)
      requires Valid()
      modifies this`mobiles
      ensures Valid()
      ensures removed <==> |old(mobiles)| > 2
      ensures mobiles == if removed then WithoutIndex(old(mobiles), index) else old(mobiles)
    {
      removed := |mobiles| > 2;
      if removed {
        mobiles := WithoutIndex(mobiles, index);
      }
    }
  }

  /** The tabs of the profile page. */
  datatype Tab = ProfileTab | OrdersTab | InquiriesTab

  /** Staff roles see only their profile; everyone else, including a
      visitor without a role, also sees orders and inquiries. */
  function Tabs(role: Option<string>): (r: seq<Tab>)
    ensures |r| >= 1 && r[0] == ProfileTab
    ensures role.Some? && role.value in {"admin", "backoffice", "subadmin"} ==> r == [ProfileTab]
    ensures !(role.Some? && role.value in {"admin", "backoffice", "subadmin"}) ==>
      r == [ProfileTab, OrdersTab, InquiriesTab]
  {
    if role == Some("admin") || role == Some("backoffice") || role == Some("subadmin") then [ProfileTab]
    else [ProfileTab, OrdersTab, InquiriesTab]
  }
}
