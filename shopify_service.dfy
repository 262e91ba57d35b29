/** The pure parts of the Shopify service (app/services/shopify.server.ts): the
    order note built from a questionnaire, the interpretation of the orderUpdate
    mutation's answer, and the projection of the products query's answer. The
    GraphQL calls themselves are parameters: their answers are given as data. */
module ShopifyService {
  import opened Common
  import opened Text

  // ---- formatQuestionnaireAsNote -----------------------------------------

  const NOTE_HEADER := "\U{1F415} SUBSCRIPTION QUESTIONNAIRE"

  /** The labels of the note's lines, in order. */
  const CAPTIONS: seq<string> := ["Dog Name", "Gender", "Size", "Breed", "Birthday", "Adoption Day",
    "Toy Preference", "Allergies", "Subscription Plan"]

  /** The fields the note is built from; text fields may be undefined, and the
      dates are instants, printed by `showDate` (`toLocaleDateString`). */
  datatype NoteData = NoteData(
    dogName: Option<string>,
    dogGender: Option<string>,
    dogSize: Option<string>,
    breed: Option<string>,
    birthday: Option<int>,
    adoptionDay: Option<int>,
    toyPreference: Option<string>,
    allergies: Option<string>,
    subscriptionPlan: Option<string>)

  /** The value printed after each caption; only the two dates' lines can be
      missing. */
  function NoteSlots(d: NoteData, showDate: int -> string): (v: seq<Option<string>>)
    ensures |v| == |CAPTIONS|
  {
    [Some(Template(d.dogName)),
     Some(Template(d.dogGender)),
     Some(Template(d.dogSize)),
     Some(Template(d.breed)),
     if d.birthday.Some? then Some(showDate(d.birthday.value)) else None,
     if d.adoptionDay.Some? then Some(showDate(d.adoptionDay.value)) else None,
     Some(Template(d.toyPreference)),
     Some(Template(d.allergies)),
     Some(Template(d.subscriptionPlan))]
  }

  function Labeled(caption: string, value: string): string {
    caption + ": " + value
  }

  /** One line per slot that has a value, in order. */
  function PresentLines(caps: seq<string>, vals: seq<Option<string>>): seq<string>
    requires |caps| == |vals|
    decreases |caps|
  {
    if |caps| == 0 then []
    else (if vals[0].Some? then [Labeled(caps[0], vals[0].value)] else []) + PresentLines(caps[1..], vals[1..])
  }

  /** The `parts` array. */
  function NoteLines(d: NoteData, showDate: int -> string): seq<string> {
    [NOTE_HEADER] + PresentLines(CAPTIONS, NoteSlots(d, showDate))
  }

  /** `parts.join("\n")` */
  function FormatNote(d: NoteData, showDate: int -> string): string {
    Join(NoteLines(d, showDate), "\n")
  }

  /** A reader for the note: the text after "<label>: " on the first line that
      begins with it. */
  function NoteValue(lines: seq<string>, caption: string): Option<string> {
    match FindFirstIndex(lines, (l: string) => StartsWith(l, caption + ": "))
    case None => None
    case Some(i) => Some(lines[i][|caption| + 2..])
  }

  /** Captions told apart by their first two characters, none starting like the
      header. */
  ghost predicate DistinctCaptions(caps: seq<string>) {
    && (forall a :: 0 <= a < |caps| ==> |caps[a]| >= 2 && caps[a][0] != NOTE_HEADER[0])
    && (forall a, b :: 0 <= a < b < |caps| ==> caps[a][0] != caps[b][0] || caps[a][1] != caps[b][1])
  }

  lemma LineStart(caption: string, value: string, other: string)
    requires |caption| >= 2 && |other| >= 2
    requires caption[0] != other[0] || caption[1] != other[1]
    ensures !StartsWith(Labeled(caption, value), other + ": ")
  {
    var line, prefix := Labeled(caption, value), other + ": ";
    assert line[0] == caption[0] && line[1] == caption[1];
    assert prefix[0] == other[0] && prefix[1] == other[1];
    if |prefix| <= |line| {
      assert line[..|prefix|][0] == line[0] && line[..|prefix|][1] == line[1];
    }
  }

  lemma HeaderStart(caption: string)
    requires |caption| >= 1 && caption[0] != NOTE_HEADER[0]
    ensures !StartsWith(NOTE_HEADER, caption + ": ")
  {
    var prefix := caption + ": ";
    assert prefix[0] == caption[0];
    if |prefix| <= |NOTE_HEADER| {
      assert NOTE_HEADER[..|prefix|][0] == NOTE_HEADER[0];
    }
  }

  /** Lines that do not carry the caption do not change what it reads. */
  lemma NoteValueSkip(head: seq<string>, rest: seq<string>, caption: string)
    requires forall j :: 0 <= j < |head| ==> !StartsWith(head[j], caption + ": ")
    ensures NoteValue(head + rest, caption) == NoteValue(rest, caption)
  {
    var p := (l: string) => StartsWith(l, caption + ": ");
    var lines := head + rest;
    match FindFirstIndex(rest, p)
    case None =>
      forall j | 0 <= j < |lines|
        ensures !p(lines[j])
      {
        if j >= |head| {
          assert lines[j] == rest[j - |head|];
        }
      }
    case Some(i) =>
      assert lines[|head| + i] == rest[i];
      forall j | 0 <= j < |head| + i
        ensures !p(lines[j])
      {
        if j >= |head| {
          assert lines[j] == rest[j - |head|];
        }
      }
  }

  /** A caption unlike every slot's caption reads nothing. */
  lemma {:induction false} NoCaption(caps: seq<string>, vals: seq<Option<string>>, caption: string)
    requires |caps| == |vals| && |caption| >= 2
    requires forall a :: 0 <= a < |caps| ==> |caps[a]| >= 2 && (caps[a][0] != caption[0] || caps[a][1] != caption[1])
    ensures NoteValue(PresentLines(caps, vals), caption) == None
    decreases |caps|
  {
    if |caps| > 0 {
      var head := if vals[0].Some? then [Labeled(caps[0], vals[0].value)] else [];
      if vals[0].Some? {
        LineStart(caps[0], vals[0].value, caption);
      }
      NoteValueSkip(head, PresentLines(caps[1..], vals[1..]), caption);
      NoCaption(caps[1..], vals[1..], caption);
    }
  }

  /** Each caption reads back its slot: the value when it has one, nothing
      otherwise. */
  lemma {:induction false} ReadSlot(caps: seq<string>, vals: seq<Option<string>>, k: nat)
    requires |caps| == |vals| && DistinctCaptions(caps) && k < |caps|
    ensures NoteValue(PresentLines(caps, vals), caps[k]) == vals[k]
    decreases |caps|
  {
    var head := if vals[0].Some? then [Labeled(caps[0], vals[0].value)] else [];
    var rest := PresentLines(caps[1..], vals[1..]);
    var p := (l: string) => StartsWith(l, caps[k] + ": ");
    if k == 0 {
      NoCaption(caps[1..], vals[1..], caps[0]);
      if vals[0].Some? {
        var lines := head + rest;
        assert p(lines[0]);
        assert FindFirstIndex(lines, p) == Some(0);
        assert lines[0][|caps[0]| + 2..] == vals[0].value;
      } else {
        assert head + rest == rest;
      }
    } else {
      if vals[0].Some? {
        LineStart(caps[0], vals[0].value, caps[k]);
      }
      NoteValueSkip(head, rest, caps[k]);
      assert caps[1..][k - 1] == caps[k];
      ReadSlot(caps[1..], vals[1..], k - 1);
    }
  }

  /** Lines built from text without `ch` hold no `ch`. */
  lemma {:induction false} PresentLinesAvoid(caps: seq<string>, vals: seq<Option<string>>, ch: char)
    requires |caps| == |vals|
    requires forall a, k :: 0 <= a < |caps| && 0 <= k < |caps[a]| ==> caps[a][k] != ch
    requires forall a, k :: 0 <= a < |vals| && vals[a].Some? && 0 <= k < |vals[a].value| ==> vals[a].value[k] != ch
    requires ch != ':' && ch != ' '
    ensures forall j, k :: 0 <= j < |PresentLines(caps, vals)| && 0 <= k < |PresentLines(caps, vals)[j]| ==>
      PresentLines(caps, vals)[j][k] != ch
    decreases |caps|
  {
    if |caps| > 0 {
      PresentLinesAvoid(caps[1..], vals[1..], ch);
      var lines := PresentLines(caps, vals);
      var rest := PresentLines(caps[1..], vals[1..]);
      if vals[0].Some? {
        var line := Labeled(caps[0], vals[0].value);
        assert lines == [line] + rest;
        forall j, k | 0 <= j < |lines| && 0 <= k < |lines[j]|
          ensures lines[j][k] != ch
        {
          if j == 0 {
            if k >= |caps[0]| + 2 {
              assert line[k] == vals[0].value[k - |caps[0]| - 2];
            }
          } else {
            assert lines[j] == rest[j - 1];
          }
        }
      } else {
        assert lines == rest;
      }
    }
  }

  predicate NoBreaks(vals: seq<Option<string>>) {
    forall a, k :: 0 <= a < |vals| && vals[a].Some? && 0 <= k < |vals[a].value| ==> vals[a].value[k] != '\n'
  }

  /** No value of the note holds a line break. */
  predicate SingleLineValues(d: NoteData, showDate: int -> string) {
    NoBreaks(NoteSlots(d, showDate))
  }

  /** The note's first line is the header. */
  lemma NoteStartsWithHeader(d: NoteData, showDate: int -> string)
    ensures NoteLines(d, showDate)[0] == NOTE_HEADER
    ensures StartsWith(FormatNote(d, showDate), NOTE_HEADER)
  {
    JoinStartsWith(NoteLines(d, showDate), "\n");
  }

  lemma CaptionsDistinct()
    ensures DistinctCaptions(CAPTIONS)
    ensures forall a, k :: 0 <= a < |CAPTIONS| && 0 <= k < |CAPTIONS[a]| ==> CAPTIONS[a][k] != '\n'
  {
  }

  lemma {:induction false} SplitLines(caps: seq<string>, vals: seq<Option<string>>)
    requires |caps| == |vals| && NoBreaks(vals)
    requires forall a, k :: 0 <= a < |caps| && 0 <= k < |caps[a]| ==> caps[a][k] != '\n'
    ensures Split(Join([NOTE_HEADER] + PresentLines(caps, vals), "\n"), '\n') == [NOTE_HEADER] + PresentLines(caps, vals)
  {
    var body := PresentLines(caps, vals);
    var lines := [NOTE_HEADER] + body;
    PresentLinesAvoid(caps, vals, '\n');
    forall j, k | 0 <= j < |lines| && 0 <= k < |lines[j]|
      ensures lines[j][k] != '\n'
    {
      if j > 0 {
        assert lines[j] == body[j - 1];
      }
    }
    SplitJoin(lines, '\n');
  }

  lemma {:induction false} ReadAll(caps: seq<string>, vals: seq<Option<string>>)
    requires |caps| == |vals| && DistinctCaptions(caps)
    ensures forall k :: 0 <= k < |caps| ==> NoteValue([NOTE_HEADER] + PresentLines(caps, vals), caps[k]) == vals[k]
  {
    forall k | 0 <= k < |caps|
      ensures NoteValue([NOTE_HEADER] + PresentLines(caps, vals), caps[k]) == vals[k]
    {
      HeaderStart(caps[k]);
      NoteValueSkip([NOTE_HEADER], PresentLines(caps, vals), caps[k]);
      ReadSlot(caps, vals, k);
    }
  }

  /** The number of slots that have a value. */
  function Given(vals: seq<Option<string>>): nat
    decreases |vals|
  {
    if |vals| == 0 then 0 else (if vals[0].Some? then 1 else 0) + Given(vals[1..])
  }

  lemma {:induction false} PresentLinesCount(caps: seq<string>, vals: seq<Option<string>>)
    requires |caps| == |vals|
    ensures |PresentLines(caps, vals)| == Given(vals)
    decreases |caps|
  {
    if |caps| > 0 {
      PresentLinesCount(caps[1..], vals[1..]);
    }
  }

  /** The note has 8 lines, plus one for each date given. */
  lemma NoteLineCount(d: NoteData, showDate: int -> string)
    ensures |NoteLines(d, showDate)| == 8 + (if d.birthday.Some? then 1 else 0) + (if d.adoptionDay.Some? then 1 else 0)
  {
    var v := NoteSlots(d, showDate);
    PresentLinesCount(CAPTIONS, v);
    assert Given(v[9..]) == 0;
    assert Given(v[8..]) == 1;
    assert Given(v[7..]) == 2;
    assert Given(v[6..]) == 3;
    assert Given(v[5..]) == 3 + (if d.adoptionDay.Some? then 1 else 0);
    assert Given(v[4..]) == 3 + (if d.adoptionDay.Some? then 1 else 0) + (if d.birthday.Some? then 1 else 0);
    assert Given(v[3..]) == Given(v[4..]) + 1;
    assert Given(v[2..]) == Given(v[4..]) + 2;
    assert Given(v[1..]) == Given(v[4..]) + 3;
    assert Given(v) == Given(v[4..]) + 4;
  }

  /** Reading the note back: with no line break in any value, splitting it on
      "\n" gives its lines back, each caption reads its value verbatim, and the
      Birthday and Adoption Day lines are there exactly when those dates are
      given. */
  lemma NoteReadsBack(d: NoteData, showDate: int -> string)
    requires SingleLineValues(d, showDate)
    ensures Split(FormatNote(d, showDate), '\n') == NoteLines(d, showDate)
    ensures
      var lines := Split(FormatNote(d, showDate), '\n');
      && NoteValue(lines, "Dog Name") == Some(Template(d.dogName))
      && NoteValue(lines, "Gender") == Some(Template(d.dogGender))
      && NoteValue(lines, "Size") == Some(Template(d.dogSize))
      && NoteValue(lines, "Breed") == Some(Template(d.breed))
      && NoteValue(lines, "Birthday") == (if d.birthday.Some? then Some(showDate(d.birthday.value)) else None)
      && NoteValue(lines, "Adoption Day") == (if d.adoptionDay.Some? then Some(showDate(d.adoptionDay.value)) else None)
      && NoteValue(lines, "Toy Preference") == Some(Template(d.toyPreference))
      && NoteValue(lines, "Allergies") == Some(Template(d.allergies))
      && NoteValue(lines, "Subscription Plan") == Some(Template(d.subscriptionPlan))
  {
    CaptionsDistinct();
    SplitLines(CAPTIONS, NoteSlots(d, showDate));
    ReadAll(CAPTIONS, NoteSlots(d, showDate));
    assert CAPTIONS[0] == "Dog Name" && CAPTIONS[1] == "Gender" && CAPTIONS[2] == "Size";
    assert CAPTIONS[3] == "Breed" && CAPTIONS[4] == "Birthday" && CAPTIONS[5] == "Adoption Day";
    assert CAPTIONS[6] == "Toy Preference" && CAPTIONS[7] == "Allergies" && CAPTIONS[8] == "Subscription Plan";
  }

  // ---- addOrderNote ------------------------------------------------------

  datatype UserError = UserError(field: seq<string>, message: string)

  /** The orderUpdate call: it throws, or answers with a `userErrors` list that
      may be missing. */
  datatype OrderUpdateReply = UpdateThrew | UpdateAnswered(userErrors: Option<seq<UserError>>)

  /** `addOrderNote`'s result: false exactly when the call throws or reports
      user errors. */
  function NoteAccepted(r: OrderUpdateReply): (ok: bool)
    ensures !ok <==> r.UpdateThrew? || (r.userErrors.Some? && |r.userErrors.value| > 0)
  {
    match r
    case UpdateThrew => false
    case UpdateAnswered(errors) => !(errors.Some? && |errors.value| > 0)
  }

  // ---- getProducts -------------------------------------------------------

  datatype VariantNode = VariantNode(id: string, price: Option<string>)
  datatype ImageNode = ImageNode(url: Option<string>, altText: Option<string>)
  datatype ProductNode = ProductNode(
    id: string,
    title: string,
    description: Option<string>,
    productType: Option<string>,
    tags: seq<string>,
    variants: Option<seq<VariantNode>>,
    images: Option<seq<ImageNode>>)

  /** The products query: it throws, or answers with `data.products.edges`,
      which may be missing. */
  datatype ProductsReply = ProductsThrew | ProductsAnswered(edges: Option<seq<ProductNode>>)

  datatype CatalogProduct = CatalogProduct(
    id: string,
    title: string,
    description: Option<string>,
    productType: Option<string>,
    tags: seq<string>,
    price: Option<string>,
    imageUrl: Option<string>)

  /** `variants?.edges?.[0]?.node?.price` */
  function FirstPrice(variants: Option<seq<VariantNode>>): Option<string> {
    if variants.Some? && |variants.value| > 0 then variants.value[0].price else None
  }

  /** `images?.edges?.[0]?.node?.url` */
  function FirstImage(images: Option<seq<ImageNode>>): Option<string> {
    if images.Some? && |images.value| > 0 then images.value[0].url else None
  }

  function CatalogEntry(n: ProductNode): CatalogProduct {
    CatalogProduct(n.id, n.title, n.description, n.productType, n.tags, FirstPrice(n.variants), FirstImage(n.images))
  }

  /** `getProducts`' result. */
  function Catalog(r: ProductsReply): seq<CatalogProduct> {
    if r.ProductsAnswered? && r.edges.Some? then
      seq(|r.edges.value|, k requires 0 <= k < |r.edges.value| => CatalogEntry(r.edges.value[k]))
    else []
  }

  /** One product per edge, in order, keeping id, title, description, type and
      tags, with the first variant's price and the first image's url (absent
      when there is none); no products when the call throws or the answer has
      no edges. */
  lemma CatalogProjection(r: ProductsReply)
    ensures r.ProductsThrew? || r.edges.None? ==> Catalog(r) == []
    ensures r.ProductsAnswered? && r.edges.Some? ==>
      && |Catalog(r)| == |r.edges.value|
      && forall k :: 0 <= k < |r.edges.value| ==>
        var n, p := r.edges.value[k], Catalog(r)[k];
        && p.id == n.id && p.title == n.title && p.description == n.description
        && p.productType == n.productType && p.tags == n.tags
        && (p.price.Some? ==> n.variants.Some? && |n.variants.value| > 0 && p.price == n.variants.value[0].price)
        && (n.variants.Some? && |n.variants.value| > 0 ==> p.price == n.variants.value[0].price)
        && (p.imageUrl.Some? ==> n.images.Some? && |n.images.value| > 0 && p.imageUrl == n.images.value[0].url)
        && (n.images.Some? && |n.images.value| > 0 ==> p.imageUrl == n.images.value[0].url)
  {
  }
}
