/** The storefront footer (components/store/Footer.tsx): the texts it derives
    from the merchant record and the category list. */
module Footer {
  import opened Wrappers
  import opened Text
  import opened Lists

  const DefaultDescription: string := "متجر إلكتروني متخصص"
  const HoursSeparator: string := " | "
  const MaxCategories: nat := 5

  datatype WorkingHour = WorkingHour(day: string, openTime: string, closeTime: string)

  datatype Address = Address(street: string, city: string, country: string)

  datatype Category = Category(id: string, name: string)

  datatype SocialIcon = FacebookIcon | TwitterIcon | InstagramIcon | LinkedInIcon | YouTubeIcon

  /** A social button: its link, and the icon shown inside it (none for an
      unknown platform). */
  datatype SocialButton = SocialButton(platform: string, href: string, icon: Option<SocialIcon>)

  /** One working-hours entry: "day: open - close". */
  function FormatHour(h: WorkingHour): (r: string)
    ensures |r| == |h.day| + 2 + |h.openTime| + 3 + |h.closeTime|
    ensures r[..|h.day|] == h.day && r[|r| - |h.closeTime|..] == h.closeTime
  {
    h.day + ": " + h.openTime + " - " + h.closeTime
  }

  /** `parts.join(sep)`. */
  function Join(parts: seq<string>, sep: string): string {
    if parts == [] then ""
    else if |parts| == 1 then parts[0]
    else parts[0] + sep + Join(parts[1..], sep)
  }

  /** Joining one more part appends the separator and the part. */
  lemma {:induction false} JoinAppend(parts: seq<string>, p: string, sep: string)
    requires parts != []
    ensures Join(parts + [p], sep) == Join(parts, sep) + sep + p
    decreases |parts|
  {
    if |parts| == 1 {
      assert (parts + [p])[1..] == [p];
    } else {
      assert (parts + [p])[1..] == parts[1..] + [p];
      JoinAppend(parts[1..], p, sep);
    }
  }

  /** A join of non-empty parts is empty only when there are no parts. */
  lemma {:induction false} JoinNonEmpty(parts: seq<string>, sep: string)
    requires forall i :: 0 <= i < |parts| ==> parts[i] != ""
    ensures Join(parts, sep) == "" <==> parts == []
    decreases |parts|
  {
    if |parts| > 1 {
      assert parts[0] != "";
      assert |Join(parts, sep)| >= |parts[0]|;
    }
  }

  function FormatHours(hours: seq<WorkingHour>): (r: seq<string>)
    ensures |r| == |hours|
    ensures forall i :: 0 <= i < |hours| ==> r[i] == FormatHour(hours[i]) && r[i] != ""
  {
    seq(|hours|, i requires 0 <= i < |hours| => FormatHour(hours[i]))
  }

  /** `workingHoursStr`: the formatted entries joined with " | " in their
      order, or "" when the merchant has none; the clock row shows only for
      a non-empty text, that is, exactly when there is an entry. */
  function WorkingHoursText(hours: Option<seq<WorkingHour>>): (r: string)
    ensures r == "" <==> hours.None? || hours.value == []
    ensures hours.Some? && |hours.value| == 1 ==> r == FormatHour(hours.value[0])
  {
    if hours.Some? && |hours.value| > 0 then
      JoinNonEmpty(FormatHours(hours.value), HoursSeparator);
      Join(FormatHours(hours.value), HoursSeparator)
    else ""
  }

  /** Adding an entry at the end appends " | " and its text; the earlier
      entries keep their place. */
  lemma WorkingHoursAppend(hours: seq<WorkingHour>, h: WorkingHour)
    requires hours != []
    ensures WorkingHoursText(Some(hours + [h])) == WorkingHoursText(Some(hours)) + HoursSeparator + FormatHour(h)
  {
    assert FormatHours(hours + [h]) == FormatHours(hours) + [FormatHour(h)];
    JoinAppend(FormatHours(hours), FormatHour(h), HoursSeparator);
  }

  /** `categories.slice(0, 5)`: the first five categories, in order. */
  function ShownCategories(categories: seq<Category>): (r: seq<Category>)
    ensures |r| == Min(|categories|, MaxCategories)
    ensures forall i :: 0 <= i < |r| ==> r[i] == categories[i]
  {
    Take(categories, MaxCategories)
  }

  const CategoryRoute: string := "/store/category/"

  /** The route a category link points to. */
  function CategoryHref(c: Category): string {
    CategoryRoute + c.id
  }

  /** Different categories link to different routes: the route determines
      the id. */
  lemma CategoryHrefInjective(c: Category, d: Category)
    requires CategoryHref(c) == CategoryHref(d)
    ensures c.id == d.id
  {
    assert c.id == CategoryHref(c)[|CategoryRoute|..];
    assert d.id == CategoryHref(d)[|CategoryRoute|..];
  }

  /** The icon of a platform key; the lookup is exact and case-sensitive. */
  function IconFor(platform: string): (icon: Option<SocialIcon>)
    ensures icon.Some? <==> platform in {"facebook", "twitter", "instagram", "linkedin", "youtube"}
  {
    if platform == "facebook" then Some(FacebookIcon)
    else if platform == "twitter" then Some(TwitterIcon)
    else if platform == "instagram" then Some(InstagramIcon)
    else if platform == "linkedin" then Some(LinkedInIcon)
    else if platform == "youtube" then Some(YouTubeIcon)
    else None
  }

  /** The social buttons, one per entry of `socialLinks` in its own order,
      skipping entries whose link is missing or empty. */
  function SocialButtons(links: seq<(string, Option<string>)>): (r: seq<SocialButton>)
    ensures |r| <= |links|
    ensures forall b :: b in r ==> b.href != "" && (b.platform, Some(b.href)) in links && b.icon == IconFor(b.platform)
    ensures forall i :: 0 <= i < |links| && Truthy(links[i].1) ==>
      SocialButton(links[i].0, links[i].1.value, IconFor(links[i].0)) in r
  {
    if links == [] then []
    else
      var rest := SocialButtons(links[1..]);
      assert forall i :: 1 <= i < |links| ==> links[i] == links[1..][i - 1];
      if Truthy(links[0].1) then [SocialButton(links[0].0, links[0].1.value, IconFor(links[0].0))] + rest
      else rest
  }

  /** Buttons keep the order of the entries: the buttons of a concatenation
      are the concatenated buttons. */
  lemma {:induction false} SocialButtonsAppend(a: seq<(string, Option<string>)>, b: seq<(string, Option<string>)>)
    ensures SocialButtons(a + b) == SocialButtons(a) + SocialButtons(b)
    decreases |a|
  {
    if a == [] {
      assert a + b == b;
    } else {
      assert (a + b)[0] == a[0];
      assert (a + b)[1..] == a[1..] + b;
      SocialButtonsAppend(a[1..], b);
    }
  }

  /** The social row; absent when the merchant has no links record. It is
      empty exactly when there is no record or no entry has a link. */
  function SocialRow(socialLinks: Option<seq<(string, Option<string>)>>): (r: seq<SocialButton>)
    ensures socialLinks.Some? ==> r == SocialButtons(socialLinks.value)
    ensures r == [] <==>
      socialLinks.None? || forall i :: 0 <= i < |socialLinks.value| ==> !Truthy(socialLinks.value[i].1)
  {
    if socialLinks.Some? then
      var links := socialLinks.value;
      var r := SocialButtons(links);
      assert r != [] ==> r[0] in r;
      r
    else []
  }

  /** The description under the store name: the merchant's own, or a default. */
  function Description(businessDescription: Option<string>): (r: string)
    ensures r != ""
    ensures Truthy(businessDescription) ==> r == businessDescription.value
    ensures !Truthy(businessDescription) ==> r == DefaultDescription
  {
    if Truthy(businessDescription) then businessDescription.value else DefaultDescription
  }

  /** The address line: "street, city, country". */
  function AddressText(a: Address): (r: string)
    ensures |r| == |a.street| + 2 + |a.city| + 2 + |a.country|
    ensures r[..|a.street|] == a.street && r[|r| - |a.country|..] == a.country
  {
    a.street + ", " + a.city + ", " + a.country
  }

  /** The rows of the contact column. */
  datatype ContactRow = AddressRow(text: string) | PhoneRow(text: string) | HoursRow(text: string)

  /** The position of a kind of row in the column. */
  function RowRank(row: ContactRow): nat {
    match row
    case AddressRow(_) => 0
    case PhoneRow(_) => 1
    case HoursRow(_) => 2
  }

  /** The contact column: the first address if there is one, the phone if
      it is non-empty, and the working hours if there is an entry, in that
      order, each at most once. */
  function ContactRows(addresses: Option<seq<Address>>, phone: Option<string>,
                       hours: Option<seq<WorkingHour>>): (rows: seq<ContactRow>)
    ensures forall i, j :: 0 <= i < j < |rows| ==> RowRank(rows[i]) < RowRank(rows[j])
    ensures forall t :: AddressRow(t) in rows <==>
      addresses.Some? && addresses.value != [] && t == AddressText(addresses.value[0])
    ensures forall t :: PhoneRow(t) in rows <==> Truthy(phone) && t == phone.value
    ensures forall t :: HoursRow(t) in rows <==>
      hours.Some? && hours.value != [] && t == WorkingHoursText(hours)
  {
    var address := if addresses.Some? && addresses.value != [] then [AddressRow(AddressText(addresses.value[0]))] else [];
    var phoneRow := if Truthy(phone) then [PhoneRow(phone.value)] else [];
    var hoursText := WorkingHoursText(hours);
    var hoursRow := if hoursText != "" then [HoursRow(hoursText)] else [];
    address + phoneRow + hoursRow
  }
}
