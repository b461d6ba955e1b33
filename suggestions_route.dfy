/**
 * The suggestions endpoint (src/app/api/suggestions/route.ts): it checks the
 * request body against a two-field schema, reports the first field error,
 * and otherwise answers with a random prefix of a random ordering of eight
 * fixed mock services.
 *
 * Randomness enters as two parameters: `shuffled`, the order that the sort
 * with a random comparator produced (always a permutation of the mock list),
 * and `pick`, the value of `Math.floor(Math.random() * 5)`, which lies in
 * [0, 5).
 */
module SuggestionsRoute {
  import opened Wrappers

  datatype Service = Service(title: string, description: string)

  /** The JSON value found under one key of the request body. */
  datatype Field = Missing | Str(text: string) | NonString(received: string)

  /** The request body: not JSON at all, JSON that is not an object, or an object. */
  datatype Body = Unparsable | NonObject | Object(clientInterest: Field, vendorCapability: Field)

  /**
   * The JSON written back. `Error(None)` is `{ error: undefined }`, which
   * serialises as `{}`.
   */
  datatype Payload = Services(services: seq<Service>) | Error(error: Option<string>)

  datatype Response = Response(status: nat, payload: Payload)

  const MinLength: nat := 10
  const ClientInterestMessage := "Please describe client interests in at least 10 characters."
  const VendorCapabilityMessage := "Please describe vendor capabilities in at least 10 characters."
  const GenericError := "An unexpected error occurred."
  /** The schema library's own messages for a missing key and for a value that is not a string. */
  const RequiredMessage := "Required"
  const InvalidTypePrefix := "Expected string, received "

  /** Length of the mock list minus three: the number of values `pick` can take. */
  const SliceChoices: nat := 5

  const MockServices: seq<Service> := [
    Service("Custom Website Development", "Building responsive and performant websites tailored to your brand."),
    Service("Mobile App Development", "Creating native or cross-platform mobile applications for iOS and Android."),
    Service("UI/UX Design Services", "Designing intuitive and beautiful user interfaces and experiences."),
    Service("Cloud Infrastructure Setup", "Configuring and managing scalable cloud solutions on AWS, GCP, or Azure."),
    Service("SEO & Digital Marketing", "Improving online visibility and driving traffic through strategic marketing."),
    Service("E-commerce Platform Integration", "Setting up online stores with platforms like Shopify or WooCommerce."),
    Service("API Development & Integration", "Building and connecting robust APIs to power your applications."),
    Service("Data Analytics & Visualization", "Turning raw data into actionable insights with powerful dashboards.")
  ]

  predicate Distinct<T(==)>(s: seq<T>)
  {
    forall i, j :: 0 <= i < j < |s| ==> s[i] != s[j]
  }

  predicate DistinctTitles(s: seq<Service>)
  {
    forall i, j :: 0 <= i < j < |s| ==> s[i].title != s[j].title
  }

  /** What the sort with a random comparator can produce: a reordering of the mock list. */
  predicate IsShuffle(shuffled: seq<Service>)
  {
    multiset(shuffled) == multiset(MockServices)
  }

  /** A field the schema accepts: a string of at least ten characters, counted untrimmed. */
  predicate ValidField(f: Field)
  {
    f.Str? && |f.text| >= MinLength
  }

  /** The request the schema accepts: exactly the requests for which the handler finds no message to report. */
  predicate ValidRequest(body: Body)
    ensures ValidRequest(body) <==> body.Object? && ErrorMessage(body.clientInterest, body.vendorCapability).None?
  {
    body.Object? && ValidField(body.clientInterest) && ValidField(body.vendorCapability)
  }

  /** The first error the schema reports for one field, `tooShort` being that field's own message. */
  function FieldError(f: Field, tooShort: string): (r: Option<string>)
    ensures r.None? <==> ValidField(f)
    ensures f.Str? && |f.text| < MinLength ==> r == Some(tooShort)
  {
    match f
    case Missing => Some(RequiredMessage)
    case NonString(received) => Some(InvalidTypePrefix + received)
    case Str(text) => if |text| < MinLength then Some(tooShort) else None
  }

  /** `fieldErrors.clientInterest?.[0] || fieldErrors.vendorCapability?.[0]` */
  function ErrorMessage(clientInterest: Field, vendorCapability: Field): (r: Option<string>)
    ensures !ValidField(clientInterest) ==> r == FieldError(clientInterest, ClientInterestMessage)
    ensures ValidField(clientInterest) ==> r == FieldError(vendorCapability, VendorCapabilityMessage)
    ensures r.None? <==> ValidField(clientInterest) && ValidField(vendorCapability)
  {
    var ci := FieldError(clientInterest, ClientInterestMessage);
    if ci.Some? then ci else FieldError(vendorCapability, VendorCapabilityMessage)
  }

  /** `shuffled.slice(0, pick + 3)` */
  function Suggestions(shuffled: seq<Service>, pick: nat): (r: seq<Service>)
    requires IsShuffle(shuffled) && pick < SliceChoices
    ensures 3 <= |r| <= 7
    ensures forall s :: s in r ==> s in MockServices
    ensures Distinct(r) && DistinctTitles(r)
  {
    ShuffleFacts(shuffled);
    shuffled[..pick + 3]
  }

  /** The handler `POST`. */
  function Post(body: Body, shuffled: seq<Service>, pick: nat): (r: Response)
    requires IsShuffle(shuffled) && pick < SliceChoices
    ensures r.status == 200 <==> ValidRequest(body)
    ensures r.status == 200 ==> r.payload.Services? && 3 <= |r.payload.services| <= 7
    ensures r.status == 200 ==> DistinctTitles(r.payload.services)
    ensures r.status == 200 ==> forall s :: s in r.payload.services ==> s in MockServices
    ensures r.status != 200 ==> r.payload.Error?
    ensures r.status == 500 <==> body.Unparsable?
    ensures body.NonObject? ==> r == Response(400, Error(None))
    ensures body.Unparsable? ==> r.payload == Error(Some(GenericError))
    ensures body.Object? && !ValidRequest(body) ==>
              r == Response(400, Error(ErrorMessage(body.clientInterest, body.vendorCapability)))
  {
    match body
    case Unparsable => Response(500, Error(Some(GenericError)))
    case NonObject => Response(400, Error(None))
    case Object(clientInterest, vendorCapability) =>
      var message := ErrorMessage(clientInterest, vendorCapability);
      if message.Some? then Response(400, Error(message))
      else Response(200, Services(Suggestions(shuffled, pick)))
  }

  /** The eight mock titles differ pairwise. */
  lemma MockTitlesDistinct()
    ensures |MockServices| == 8
    ensures DistinctTitles(MockServices)
  {
    var m := MockServices;
    assert m[0].title[1] == 'u' && m[3].title[1] == 'l';
    forall i, j | 0 <= i < j < |m| ensures m[i].title != m[j].title {
      if !(i == 0 && j == 3) {
        assert m[i].title[0] != m[j].title[0];
      }
    }
  }

  /** A value occurs at most once in a sequence without repetitions. */
  lemma {:induction false} DistinctCount<T>(s: seq<T>, x: T)
    requires Distinct(s)
    ensures multiset(s)[x] <= 1
  {
    if s != [] {
      assert s == [s[0]] + s[1..];
      DistinctCount(s[1..], x);
      if x == s[0] {
        assert x !in s[1..];
      }
    }
  }

  /** A value found at two positions occurs at least twice. */
  lemma RepeatCount<T>(s: seq<T>, i: nat, j: nat)
    requires i < j < |s| && s[i] == s[j]
    ensures multiset(s)[s[i]] >= 2
  {
    assert s == s[..i] + [s[i]] + s[i + 1..j] + [s[j]] + s[j + 1..];
  }

  /** Reordering keeps a sequence free of repetitions. */
  lemma PermutationDistinct<T>(a: seq<T>, b: seq<T>)
    requires multiset(a) == multiset(b) && Distinct(b)
    ensures Distinct(a)
  {
    forall i, j | 0 <= i < j < |a| ensures a[i] != a[j] {
      if a[i] == a[j] {
        RepeatCount(a, i, j);
        DistinctCount(b, a[i]);
      }
    }
  }

  /** Titles that differ pairwise make the services differ pairwise. */
  lemma DistinctTitlesDistinct(s: seq<Service>)
    requires DistinctTitles(s)
    ensures Distinct(s)
  {
  }

  /** Reordering a list whose titles differ pairwise keeps its titles pairwise different. */
  lemma PermutationDistinctTitles(a: seq<Service>, b: seq<Service>)
    requires multiset(a) == multiset(b) && DistinctTitles(b)
    ensures |a| == |b|
    ensures forall s :: s in a ==> s in b
    ensures Distinct(a) && DistinctTitles(a)
  {
    assert |a| == |multiset(a)| == |multiset(b)| == |b|;
    forall s | s in a ensures s in b {
      assert s in multiset(a);
    }
    DistinctTitlesDistinct(b);
    PermutationDistinct(a, b);
    forall i, j | 0 <= i < j < |a| ensures a[i].title != a[j].title {
      assert a[i] in b && a[j] in b;
      var p :| 0 <= p < |b| && b[p] == a[i];
      var q :| 0 <= q < |b| && b[q] == a[j];
      assert p != q;
    }
  }

  /** A shuffle has eight entries, all of them mock services, with no title twice. */
  lemma ShuffleFacts(shuffled: seq<Service>)
    requires IsShuffle(shuffled)
    ensures |shuffled| == 8
    ensures forall s :: s in shuffled ==> s in MockServices
    ensures Distinct(shuffled) && DistinctTitles(shuffled)
  {
    MockTitlesDistinct();
    PermutationDistinctTitles(shuffled, MockServices);
  }

  /** When both fields are too short, the client-interest message is the one reported. */
  lemma BothTooShort(ci: string, vc: string, shuffled: seq<Service>, pick: nat)
    requires IsShuffle(shuffled) && pick < SliceChoices
    requires |ci| < MinLength && |vc| < MinLength
    ensures Post(Object(Str(ci), Str(vc)), shuffled, pick) == Response(400, Error(Some(ClientInterestMessage)))
  {
  }

  /** Length is measured on the raw text: ten spaces are a valid field. */
  lemma UntrimmedLength(shuffled: seq<Service>, pick: nat)
    requires IsShuffle(shuffled) && pick < SliceChoices
    ensures Post(Object(Str("          "), Str("          ")), shuffled, pick).status == 200
  {
  }

  /** Every prefix length from 3 to 7 is reachable, and only those. */
  lemma EverySizeReachable(shuffled: seq<Service>, n: nat)
    requires IsShuffle(shuffled) && 3 <= n <= 7
    ensures exists pick: nat :: pick < SliceChoices && |Suggestions(shuffled, pick)| == n
  {
    var pick: nat := n - 3;
    assert |Suggestions(shuffled, pick)| == n;
  }
}
