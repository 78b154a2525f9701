/** Turning the registration and edit forms into the JSON records sent to
    the store, and checking them first: the category checkbox collector,
    tag parsing, the two subscription normalisations and `validateAppData`. */
module Forms {
  import opened Common
  import opened Text
  import opened Seqs

  /** One category checkbox of a form. */
  datatype Checkbox = Checkbox(value: string, checked: bool)

  predicate IsChecked(box: Checkbox)
  {
    box.checked
  }

  /** The values of the checked boxes, in document order: one value per
      checked box, the boxes taken in the order of the page. */
  function CheckedValues(boxes: seq<Checkbox>): (values: seq<string>)
    ensures |values| == |Filter(boxes, IsChecked)| <= |boxes|
    ensures forall k :: 0 <= k < |values| ==> values[k] == Filter(boxes, IsChecked)[k].value
    ensures forall v :: v in values <==> exists k :: 0 <= k < |boxes| && boxes[k].checked && boxes[k].value == v
  {
    if boxes == [] then []
    else
      var last := boxes[|boxes| - 1];
      var front := boxes[..|boxes| - 1];
      var before := CheckedValues(front);
      assert forall k :: 0 <= k < |boxes| - 1 ==> front[k] == boxes[k];
      assert boxes == front + [last];
      FilterAppend(front, [last], IsChecked);
      assert Filter([last], IsChecked) == if last.checked then [last] else [];
      if last.checked then before + [last.value] else before
  }

  /** The collectors of `handleFormSubmit` and `handleEditFormSubmit`:
      `querySelectorAll(':checked')` then `forEach` pushing each value. */
  method CollectSelectedCategories(boxes: seq<Checkbox>) returns (selected: seq<string>)
    ensures selected == CheckedValues(boxes)
  {
    selected := [];
    var k := 0;
    while k < |boxes|
      invariant 0 <= k <= |boxes|
      invariant selected == CheckedValues(boxes[..k])
    {
      assert boxes[..k + 1][..k] == boxes[..k];
      if boxes[k].checked {
        selected := selected + [boxes[k].value];
      }
      k := k + 1;
    }
    assert boxes[..k] == boxes;
  }

  /** `.map(tag => tag.trim())`. */
  function TrimAll(pieces: seq<string>): (r: seq<string>)
    ensures |r| == |pieces|
    ensures forall k :: 0 <= k < |r| ==> r[k] == Trim(pieces[k])
  {
    if pieces == [] then [] else [Trim(pieces[0])] + TrimAll(pieces[1..])
  }

  predicate NonEmpty(t: string)
  {
    t != ""
  }

  /** A tag as the store should hold it: non-empty, trimmed, comma-free. */
  predicate CleanTag(t: string)
  {
    t != "" && Trimmed(t) && ',' !in t
  }

  /** The tag field parser of both forms:
      `tags ? tags.split(',').map(tag => tag.trim()).filter(tag => tag) : []`. */
  function ParseTags(field: Option<string>): (tags: seq<string>)
    ensures !Truthy(field) ==> tags == []
    ensures forall k :: 0 <= k < |tags| ==> tags[k] != "" && Trimmed(tags[k])
  {
    if Truthy(field) then Filter(TrimAll(Split(field.value, ',')), NonEmpty) else []
  }

  /** The parsed tags are the trimmed, non-empty comma-separated pieces of
      the field in input order, each one a clean tag. */
  lemma {:induction false} ParseTagsInOrder(text: string)
    requires text != ""
    ensures IsSubsequence(ParseTags(Some(text)), TrimAll(Split(text, ',')))
    ensures forall t :: multiset(ParseTags(Some(text)))[t]
                     == if t != "" then multiset(TrimAll(Split(text, ',')))[t] else 0
    ensures forall k :: 0 <= k < |ParseTags(Some(text))| ==> CleanTag(ParseTags(Some(text))[k])
  {
    ParseTagsKeepsPieces(text);
    ParseTagsClean(text);
  }

  lemma {:induction false} ParseTagsKeepsPieces(text: string)
    requires text != ""
    ensures IsSubsequence(ParseTags(Some(text)), TrimAll(Split(text, ',')))
    ensures forall t :: multiset(ParseTags(Some(text)))[t]
                     == if t != "" then multiset(TrimAll(Split(text, ',')))[t] else 0
  {
    var trimmed := TrimAll(Split(text, ','));
    assert ParseTags(Some(text)) == Filter(trimmed, NonEmpty);
    DropEmpties(trimmed);
  }

  /** Dropping the empty pieces keeps every other piece, in order. */
  lemma {:induction false} DropEmpties(pieces: seq<string>)
    ensures IsSubsequence(Filter(pieces, NonEmpty), pieces)
    ensures forall t :: multiset(Filter(pieces, NonEmpty))[t] == if t != "" then multiset(pieces)[t] else 0
  {
    FilterIsSubsequence(pieces, NonEmpty);
    forall t ensures NonEmpty(t) == (t != "") {
    }
  }

  lemma {:induction false} ParseTagsClean(text: string)
    requires text != ""
    ensures forall k :: 0 <= k < |ParseTags(Some(text))| ==> CleanTag(ParseTags(Some(text))[k])
  {
    var pieces := Split(text, ',');
    TrimAllHasNo(pieces, ',');
  }

  /** Trimming cannot bring in a character the pieces lack. */
  lemma {:induction false} TrimAllHasNo(pieces: seq<string>, c: char)
    requires forall k :: 0 <= k < |pieces| ==> c !in pieces[k]
    ensures forall t :: t in TrimAll(pieces) ==> c !in t
  {
    var trimmed := TrimAll(pieces);
    forall j | 0 <= j < |trimmed| ensures c !in trimmed[j] {
      TrimLacks(pieces[j], c);
    }
  }

  /** `" " + t` for every tag after the first. */
  function Spaced(ts: seq<string>): (r: seq<string>)
    ensures |r| == |ts|
    ensures forall k :: 0 <= k < |r| ==> r[k] == " " + ts[k]
  {
    if ts == [] then [] else [" " + ts[0]] + Spaced(ts[1..])
  }

  lemma {:induction false} JoinSpaced(ts: seq<string>)
    requires |ts| >= 1
    ensures Join(Spaced(ts), ",") == " " + Join(ts, ", ")
  {
    if |ts| > 1 {
      JoinSpaced(ts[1..]);
      assert Spaced(ts)[1..] == Spaced(ts[1..]);
    }
  }

  /** The pieces `split(',')` finds in `tags.join(', ')`: the first tag, then
      every other one behind a space. */
  function JoinedPieces(tags: seq<string>): seq<string>
    requires tags != []
  {
    [tags[0]] + Spaced(tags[1..])
  }

  lemma {:induction false} JoinedPiecesJoin(tags: seq<string>)
    requires tags != []
    ensures Join(tags, ", ") == Join(JoinedPieces(tags), ",")
  {
    var pieces := JoinedPieces(tags);
    if |tags| > 1 {
      JoinSpaced(tags[1..]);
      assert pieces[1..] == Spaced(tags[1..]);
    }
  }

  lemma {:induction false} JoinedPiecesTrim(tags: seq<string>)
    requires tags != []
    requires forall k :: 0 <= k < |tags| ==> CleanTag(tags[k])
    ensures forall k :: 0 <= k < |tags| ==> ',' !in JoinedPieces(tags)[k]
    ensures TrimAll(JoinedPieces(tags)) == tags
  {
    var pieces := JoinedPieces(tags);
    forall k | 0 <= k < |pieces| ensures ',' !in pieces[k] && Trim(pieces[k]) == tags[k] {
      JoinedPieceTrim(tags, k);
    }
  }

  lemma {:induction false} JoinedPieceTrim(tags: seq<string>, k: int)
    requires 0 <= k < |tags|
    requires CleanTag(tags[k])
    ensures ',' !in JoinedPieces(tags)[k] && Trim(JoinedPieces(tags)[k]) == tags[k]
  {
    if k == 0 {
      TrimTrimmed(tags[0]);
    } else {
      var piece := " " + tags[k];
      assert JoinedPieces(tags)[k] == piece;
      assert piece == " " + tags[k] + "";
      TrimPadded(" ", tags[k], "");
    }
  }

  /** `split(',')` of `tags.join(', ')` finds the first tag, then every
      other one behind a space. */
  lemma {:induction false} SplitJoined(tags: seq<string>)
    requires tags != []
    requires forall k :: 0 <= k < |tags| ==> CleanTag(tags[k])
    ensures Split(Join(tags, ", "), ',') == JoinedPieces(tags)
  {
    JoinedPiecesJoin(tags);
    JoinedPiecesTrim(tags);
    SplitJoin(JoinedPieces(tags), ',');
  }

  /** The edit form shows stored tags as `tags.join(', ')`; parsing that text
      again on save gives back exactly the stored tags when they are clean. */
  lemma {:induction false} ParseTagsRoundTrip(tags: seq<string>)
    requires forall k :: 0 <= k < |tags| ==> CleanTag(tags[k])
    ensures ParseTags(Some(Join(tags, ", "))) == tags
  {
    if tags != [] {
      var text := Join(tags, ", ");
      assert text != "" by { JoinStartsWithFirst(tags, ", "); assert tags[0] != ""; }
      var pieces := Split(text, ',');
      assert pieces == JoinedPieces(tags) by { SplitJoined(tags); }
      assert TrimAll(pieces) == tags by { JoinedPiecesTrim(tags); }
      assert Filter(tags, NonEmpty) == tags by { FilterAll(tags, NonEmpty); }
    }
  }

  /** The form fields both forms submit. The text inputs are always present;
      the others may be missing (`formData.get` returns `null`). */
  datatype FormFields = FormFields(
    name: string,
    url: string,
    description: string,
    iconUrl: string,
    tags: Option<string>,
    rating: Option<string>,
    isFavorite: Option<string>,
    status: Option<string>,
    plan: Option<string>,
    price: Option<string>,
    billingCycle: Option<string>,
    startDate: Option<string>,
    nextBillingDate: Option<string>)

  /** `parseFloat` and `parseInt`; `None` stands for `NaN`. */
  type ParseNumber = string -> Option<real>
  type ParseInteger = string -> Option<int>

  /** The subscription part of a record as sent. A `NaN` price travels as `null`. */
  datatype Subscription = Subscription(
    status: string,
    plan: Json<string>,
    price: Json<real>,
    billingCycle: Json<string>,
    startDate: Json<string>,
    nextBillingDate: Json<string>)

  /** The record a form builds and sends as the request body. */
  datatype AppRecord = AppRecord(
    name: string,
    url: string,
    categories: seq<string>,
    description: string,
    iconUrl: string,
    tags: seq<string>,
    rating: int,
    isFavorite: bool,
    usageCount: Json<int>,
    lastUsed: Json<int>,
    subscription: Subscription)

  /** `formData.get('subscription_status') || 'free'`. */
  function EffectiveStatus(form: FormFields): (status: string)
    ensures status != ""
    ensures Truthy(form.status) ==> status == form.status.value
    ensures !Truthy(form.status) ==> status == "free"
  {
    OrElse(form.status, "free")
  }

  /** `parseFloat(x) || 0`. */
  function PriceOrZero(field: Option<string>, parseFloat: ParseNumber): (price: real)
    ensures field.Some? && parseFloat(field.value).Some? ==> price == parseFloat(field.value).value
    ensures field.None? || parseFloat(field.value).None? ==> price == 0.0
  {
    match field
    case None => 0.0
    case Some(text) => match parseFloat(text) { case None => 0.0 case Some(v) => v }
  }

  /** `parseInt(formData.get('rating')) || 0`. */
  function Rating(field: Option<string>, parseInt: ParseInteger): (rating: int)
    ensures field.Some? && parseInt(field.value).Some? ==> rating == parseInt(field.value).value
    ensures field.None? || parseInt(field.value).None? ==> rating == 0
  {
    match field
    case None => 0
    case Some(text) => match parseInt(text) { case None => 0 case Some(v) => v }
  }

  /** The subscription fields `handleFormSubmit` writes inline. Every field is
      present; a free entry gets plan `''`, price `0` and null cycle and dates;
      any other status gets a value for plan, price and billing cycle, the
      cycle defaulting to `monthly`. */
  function RegistrationSubscription(form: FormFields, parseFloat: ParseNumber): (sub: Subscription)
    ensures sub.status == EffectiveStatus(form)
    ensures sub.status == "free" ==>
      && sub.plan == Val("") && sub.price == Val(0.0)
      && sub.billingCycle == Null && sub.startDate == Null && sub.nextBillingDate == Null
    ensures sub.status != "free" ==>
      && sub.plan == Val(if form.plan.Some? then Trim(form.plan.value) else "")
      && Trimmed(sub.plan.value)
      && (form.price.None? || parseFloat(form.price.value).None? ==> sub.price == Val(0.0))
      && (form.price.Some? && parseFloat(form.price.value).Some? ==> sub.price == Val(parseFloat(form.price.value).value))
      && sub.billingCycle == Val(OrElse(form.billingCycle, "monthly"))
      && sub.startDate == OrNull(form.startDate) && sub.nextBillingDate == OrNull(form.nextBillingDate)
  {
    var status := EffectiveStatus(form);
    if status != "free" then
      Subscription(
        status,
        Val(match form.plan { case None => "" case Some(p) => Trim(p) }),
        Val(PriceOrZero(form.price, parseFloat)),
        Val(OrElse(form.billingCycle, "monthly")),
        OrNull(form.startDate),
        OrNull(form.nextBillingDate))
    else
      Subscription(status, Val(""), Val(0.0), Null, Null, Null)
  }

  /** The object `collectEditSubscriptionData` returns, stated field by field:
      free nulls every subscription field; paid keeps the form values with
      `null` for missing ones and `monthly` as the default cycle; trial forces
      plan `Trial`, a null price and cycle `trial`; any other status leaves
      every field out. */
  function EditSubscription(form: FormFields, parseFloat: ParseNumber): (sub: Subscription)
    ensures sub.status == EffectiveStatus(form)
    ensures sub.status == "free" ==>
      && sub.plan == Null && sub.price == Null && sub.billingCycle == Null
      && sub.startDate == Null && sub.nextBillingDate == Null
    ensures sub.status == "paid" ==>
      && sub.plan == OrNull(form.plan)
      && (sub.price == Null <== !Truthy(form.price))
      && (Truthy(form.price) && parseFloat(form.price.value).Some? ==> sub.price == Val(parseFloat(form.price.value).value))
      && (Truthy(form.price) && parseFloat(form.price.value).None? ==> sub.price == Null)
      && sub.billingCycle == Val(OrElse(form.billingCycle, "monthly"))
    ensures sub.status == "trial" ==>
      sub.plan == Val("Trial") && sub.price == Null && sub.billingCycle == Val("trial")
    ensures sub.status in {"paid", "trial"} ==>
      sub.startDate == OrNull(form.startDate) && sub.nextBillingDate == OrNull(form.nextBillingDate)
    ensures sub.status !in {"free", "paid", "trial"} ==>
      sub == Subscription(sub.status, Absent, Absent, Absent, Absent, Absent)
  {
    var status := EffectiveStatus(form);
    if status == "free" then
      Subscription(status, Null, Null, Null, Null, Null)
    else if status == "paid" then
      Subscription(
        status,
        OrNull(form.plan),
        if Truthy(form.price) then
          (match parseFloat(form.price.value) { case None => Null case Some(v) => Val(v) })
        else Null,
        Val(OrElse(form.billingCycle, "monthly")),
        OrNull(form.startDate),
        OrNull(form.nextBillingDate))
    else if status == "trial" then
      Subscription(status, Val("Trial"), Null, Val("trial"), OrNull(form.startDate), OrNull(form.nextBillingDate))
    else
      Subscription(status, Absent, Absent, Absent, Absent, Absent)
  }

  /** `collectEditSubscriptionData`: starts from `{ subscription_status }` and
      assigns the fields of the status's branch one by one. */
  method CollectEditSubscriptionData(form: FormFields, parseFloat: ParseNumber) returns (data: Subscription)
    ensures data == EditSubscription(form, parseFloat)
  {
    var status := OrElse(form.status, "free");
    data := Subscription(status, Absent, Absent, Absent, Absent, Absent);
    if status == "free" {
      data := data.(plan := Null);
      data := data.(price := Null);
      data := data.(billingCycle := Null);
      data := data.(startDate := Null);
      data := data.(nextBillingDate := Null);
    } else if status == "paid" {
      data := data.(plan := OrNull(form.plan));
      if Truthy(form.price) {
        var parsed := parseFloat(form.price.value);
        data := data.(price := if parsed.Some? then Val(parsed.value) else Null);
      } else {
        data := data.(price := Null);
      }
      data := data.(billingCycle := Val(OrElse(form.billingCycle, "monthly")));
      data := data.(startDate := OrNull(form.startDate));
      data := data.(nextBillingDate := OrNull(form.nextBillingDate));
    } else if status == "trial" {
      data := data.(plan := Val("Trial"));
      data := data.(price := Null);
      data := data.(billingCycle := Val("trial"));
      data := data.(startDate := OrNull(form.startDate));
      data := data.(nextBillingDate := OrNull(form.nextBillingDate));
    }
  }

  /** For a free entry the two forms disagree on plan and price (`''` and `0`
      on registration, `null` on edit) and agree that cycle and dates are null. */
  lemma FreeEntryNormalisation(form: FormFields, parseFloat: ParseNumber)
    requires EffectiveStatus(form) == "free"
    ensures RegistrationSubscription(form, parseFloat).plan == Val("")
    ensures RegistrationSubscription(form, parseFloat).price == Val(0.0)
    ensures EditSubscription(form, parseFloat).plan == Null
    ensures EditSubscription(form, parseFloat).price == Null
    ensures RegistrationSubscription(form, parseFloat).billingCycle == EditSubscription(form, parseFloat).billingCycle == Null
    ensures RegistrationSubscription(form, parseFloat).startDate == EditSubscription(form, parseFloat).startDate == Null
    ensures RegistrationSubscription(form, parseFloat).nextBillingDate == EditSubscription(form, parseFloat).nextBillingDate == Null
  {
  }

  /** For a paid entry both forms send the same status, billing cycle and dates. */
  lemma PaidEntryNormalisation(form: FormFields, parseFloat: ParseNumber)
    requires EffectiveStatus(form) == "paid"
    ensures RegistrationSubscription(form, parseFloat).billingCycle == EditSubscription(form, parseFloat).billingCycle
    ensures RegistrationSubscription(form, parseFloat).startDate == EditSubscription(form, parseFloat).startDate
    ensures RegistrationSubscription(form, parseFloat).nextBillingDate == EditSubscription(form, parseFloat).nextBillingDate
  {
  }

  /** The registration record built inline in `handleFormSubmit`. */
  function BuildRegistrationRecord(form: FormFields, categories: seq<string>,
                                   parseInt: ParseInteger, parseFloat: ParseNumber): (r: AppRecord)
    ensures r.name == Trim(form.name) && r.url == Trim(form.url)
    ensures r.description == Trim(form.description) && r.iconUrl == Trim(form.iconUrl)
    ensures Trimmed(r.name) && Trimmed(r.url) && Trimmed(r.description) && Trimmed(r.iconUrl)
    ensures r.rating == Rating(form.rating, parseInt)
    ensures r.categories == categories && r.tags == ParseTags(form.tags)
    ensures r.isFavorite <==> form.isFavorite == Some("on")
    ensures r.usageCount == Val(0) && r.lastUsed == Null
    ensures r.subscription == RegistrationSubscription(form, parseFloat)
  {
    AppRecord(Trim(form.name), Trim(form.url), categories, Trim(form.description), Trim(form.iconUrl),
              ParseTags(form.tags), Rating(form.rating, parseInt), form.isFavorite == Some("on"),
              Val(0), Null, RegistrationSubscription(form, parseFloat))
  }

  /** The record `handleEditFormSubmit` builds; it carries no usage fields. */
  function BuildEditRecord(form: FormFields, categories: seq<string>,
                           parseInt: ParseInteger, parseFloat: ParseNumber): (r: AppRecord)
    ensures r.name == Trim(form.name) && r.url == Trim(form.url)
    ensures r.description == Trim(form.description) && r.iconUrl == Trim(form.iconUrl)
    ensures Trimmed(r.name) && Trimmed(r.url) && Trimmed(r.description) && Trimmed(r.iconUrl)
    ensures r.rating == Rating(form.rating, parseInt)
    ensures r.categories == categories && r.tags == ParseTags(form.tags)
    ensures r.isFavorite <==> form.isFavorite == Some("on")
    ensures r.usageCount == Absent && r.lastUsed == Absent
    ensures r.subscription == EditSubscription(form, parseFloat)
  {
    AppRecord(Trim(form.name), Trim(form.url), categories, Trim(form.description), Trim(form.iconUrl),
              ParseTags(form.tags), Rating(form.rating, parseInt), form.isFavorite == Some("on"),
              Absent, Absent, EditSubscription(form, parseFloat))
  }

  /** Outside the subscription part and the usage fields the two forms build the same record. */
  lemma BuildersAgree(form: FormFields, categories: seq<string>, parseInt: ParseInteger, parseFloat: ParseNumber)
    ensures BuildRegistrationRecord(form, categories, parseInt, parseFloat).(usageCount := Absent, lastUsed := Absent,
                                                                            subscription := EditSubscription(form, parseFloat))
         == BuildEditRecord(form, categories, parseInt, parseFloat)
  {
  }

  /** What validation does to the page besides its verdict. */
  datatype UiEffect = ShowErrorMessage(message: string) | ShowCategoriesError

  datatype Validation = Validation(valid: bool, effects: seq<UiEffect>)

  const NameRequired := "앱 이름을 입력해주세요."
  const UrlRequired := "앱 URL을 입력해주세요."
  const CategoryRequired := "최소 하나의 카테고리를 선택해주세요."
  const UrlMalformed := "올바른 URL을 입력해주세요."

  /** `validateAppData`; `parsesAsUrl` stands for `new URL(...)` not throwing.
      The record is valid exactly when all four checks pass, and a valid record
      causes no effect; the category indicator is raised exactly when name and
      url are present and no category is selected. */
  function ValidateAppData(data: AppRecord, parsesAsUrl: string -> bool): (v: Validation)
    ensures v.valid <==> data.name != "" && data.url != "" && |data.categories| > 0 && parsesAsUrl(data.url)
    ensures v.valid <==> v.effects == []
    ensures ShowCategoriesError in v.effects <==> data.name != "" && data.url != "" && data.categories == []
  {
    if data.name == "" then Validation(false, [ShowErrorMessage(NameRequired)])
    else if data.url == "" then Validation(false, [ShowErrorMessage(UrlRequired)])
    else if |data.categories| == 0 then Validation(false, [ShowErrorMessage(CategoryRequired), ShowCategoriesError])
    else if !parsesAsUrl(data.url) then Validation(false, [ShowErrorMessage(UrlMalformed)])
    else Validation(true, [])
  }

  /** The message shown is the one of the first failing check in the order
      name, url, categories, url syntax. */
  lemma ValidationReportsFirstFailure(data: AppRecord, parsesAsUrl: string -> bool)
    ensures var v := ValidateAppData(data, parsesAsUrl);
      && (data.name == "" ==> v.effects == [ShowErrorMessage(NameRequired)])
      && (data.name != "" && data.url == "" ==> v.effects == [ShowErrorMessage(UrlRequired)])
      && (data.name != "" && data.url != "" && data.categories == [] ==>
            v.effects == [ShowErrorMessage(CategoryRequired), ShowCategoriesError])
      && (data.name != "" && data.url != "" && data.categories != [] && !parsesAsUrl(data.url) ==>
            v.effects == [ShowErrorMessage(UrlMalformed)])
  {
  }
}
