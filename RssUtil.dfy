/** Feed rendering: the challenges are sorted ascending by
    `registrationStartDate` with a stable sort, the order is reversed, and each
    challenge becomes one feed item with a title, a link, a guid, a date and an
    HTML description blurb. The HTML sanitizer, the tag-safe truncation, date
    formatting, template escaping and the RSS serializer are foreign code and
    come in as the function values of `Libs`. */
module RssUtil {
  import opened Js
  import Config

  /** One RSS item as handed to the serializer. */
  datatype FeedItem = FeedItem(title: Json, url: string, guid: Json, date: Json, description: string)

  /** The foreign libraries, uninterpreted. `formatDate` stands for
      `moment(date).format(...)`; on `undefined` it formats the current time. */
  datatype Libs = Libs(
    sanitize: string -> string,
    truncate: (string, nat) -> string,
    formatDate: Json -> string,
    escape: string -> string,
    xml: seq<FeedItem> -> string)

  // ---------------------------------------------------------------------------
  // The sort key and its order

  function DateOf(c: Record): Json {
    Get(c, "registrationStartDate")
  }

  /** Lexicographic order on strings. */
  predicate StrLe(a: string, b: string)
    decreases |a|
  {
    |a| == 0 || (|b| > 0 && (a[0] < b[0] || (a[0] == b[0] && StrLe(a[1..], b[1..]))))
  }

  lemma {:induction false} StrLeTotal(a: string, b: string)
    ensures StrLe(a, b) || StrLe(b, a)
    decreases |a|
  {
    if |a| > 0 && |b| > 0 && a[0] == b[0] {
      StrLeTotal(a[1..], b[1..]);
    }
  }

  lemma {:induction false} StrLeTrans(a: string, b: string, c: string)
    requires StrLe(a, b) && StrLe(b, c)
    ensures StrLe(a, c)
    decreases |a|
  {
    if |a| > 0 && a[0] == b[0] && b[0] == c[0] {
      StrLeTrans(a[1..], b[1..], c[1..]);
    }
  }

  /** The order of sort keys: date strings compare lexicographically, and
      every key that is not a string (a missing date among them) sorts after
      all strings, tied with the others of its kind. */
  predicate KeyLe(a: Json, b: Json) {
    if a.Str? && b.Str? then StrLe(a.s, b.s)
    else !a.Str? ==> !b.Str?
  }

  lemma KeyLeTotal(a: Json, b: Json)
    ensures KeyLe(a, b) || KeyLe(b, a)
  {
    if a.Str? && b.Str? {
      StrLeTotal(a.s, b.s);
    }
  }

  lemma KeyLeTrans(a: Json, b: Json, c: Json)
    requires KeyLe(a, b) && KeyLe(b, c)
    ensures KeyLe(a, c)
  {
    if a.Str? && b.Str? && c.Str? {
      StrLeTrans(a.s, b.s, c.s);
    }
  }

  // ---------------------------------------------------------------------------
  // Stable ascending sort, then reverse

  /** A challenge with its position in the input. */
  datatype Tagged = Tagged(pos: nat, rec: Record)

  function KeyOf(t: Tagged): Json {
    DateOf(t.rec)
  }

  /** The input with positions attached. */
  function Tag(s: seq<Record>): (t: seq<Tagged>)
    ensures |t| == |s|
    ensures forall i :: 0 <= i < |s| ==> t[i] == Tagged(i, s[i])
  {
    seq(|s|, i requires 0 <= i < |s| => Tagged(i, s[i]))
  }

  /** `x` precedes `y` in a stable ascending sort: its key is not larger, and
      on equal keys it came first in the input. */
  predicate Before(x: Tagged, y: Tagged) {
    KeyLe(KeyOf(x), KeyOf(y)) && (KeyLe(KeyOf(y), KeyOf(x)) ==> x.pos < y.pos)
  }

  lemma BeforeTrans(a: Tagged, b: Tagged, c: Tagged)
    requires Before(a, b) && Before(b, c)
    ensures Before(a, c)
  {
    KeyLeTrans(KeyOf(a), KeyOf(b), KeyOf(c));
    if KeyLe(KeyOf(c), KeyOf(a)) {
      KeyLeTrans(KeyOf(b), KeyOf(c), KeyOf(a));
      KeyLeTrans(KeyOf(c), KeyOf(a), KeyOf(b));
    }
  }

  ghost predicate SortedBefore(t: seq<Tagged>) {
    forall i, j :: 0 <= i < j < |t| ==> Before(t[i], t[j])
  }

  /** Places `x` ahead of the first element whose key is not smaller than its
      own, so that `x` stays ahead of the later equal-keyed elements. */
  function Insert(x: Tagged, t: seq<Tagged>): (r: seq<Tagged>)
    ensures |r| == |t| + 1
  {
    if t == [] || KeyLe(KeyOf(x), KeyOf(t[0])) then [x] + t
    else [t[0]] + Insert(x, t[1..])
  }

  /** The stable ascending sort by key (`sortBy("registrationStartDate")`). */
  function SortAsc(t: seq<Tagged>): (r: seq<Tagged>)
    ensures |r| == |t|
  {
    if t == [] then [] else Insert(t[0], SortAsc(t[1..]))
  }

  /** `reverse()`: the last element first. */
  function Reverse(t: seq<Tagged>): (r: seq<Tagged>)
    ensures |r| == |t|
    ensures t != [] ==> r[0] == t[|t| - 1] && r[|r| - 1] == t[0]
  {
    if t == [] then [] else Reverse(t[1..]) + [t[0]]
  }

  /** The order in which the challenges become feed items. */
  function Ordered(s: seq<Record>): (o: seq<Tagged>)
    ensures |o| == |s|
  {
    Reverse(SortAsc(Tag(s)))
  }

  lemma {:induction false} InsertPerm(x: Tagged, t: seq<Tagged>)
    ensures multiset(Insert(x, t)) == multiset{x} + multiset(t)
  {
    if t != [] && !KeyLe(KeyOf(x), KeyOf(t[0])) {
      InsertPerm(x, t[1..]);
      assert t == [t[0]] + t[1..];
    }
  }

  lemma {:induction false} SortAscPerm(t: seq<Tagged>)
    ensures multiset(SortAsc(t)) == multiset(t)
  {
    if t != [] {
      SortAscPerm(t[1..]);
      InsertPerm(t[0], SortAsc(t[1..]));
      assert t == [t[0]] + t[1..];
    }
  }

  lemma {:induction false} InsertSorted(x: Tagged, t: seq<Tagged>)
    requires SortedBefore(t)
    requires forall y :: y in t ==> x.pos < y.pos
    ensures SortedBefore(Insert(x, t))
  {
    if t == [] {
    } else if KeyLe(KeyOf(x), KeyOf(t[0])) {
      var r := [x] + t;
      forall i, j | 0 <= i < j < |r| ensures Before(r[i], r[j]) {
        if i == 0 {
          assert r[j] == t[j - 1] && t[j - 1] in t;
          if j > 1 {
            assert Before(t[0], t[j - 1]);
            KeyLeTrans(KeyOf(x), KeyOf(t[0]), KeyOf(t[j - 1]));
          }
        } else {
          assert r[i] == t[i - 1] && r[j] == t[j - 1];
        }
      }
    } else {
      KeyLeTotal(KeyOf(x), KeyOf(t[0]));
      var rest := Insert(x, t[1..]);
      InsertSorted(x, t[1..]);
      InsertPerm(x, t[1..]);
      var r := [t[0]] + rest;
      forall i, j | 0 <= i < j < |r| ensures Before(r[i], r[j]) {
        if i == 0 {
          assert r[j] in multiset(rest);
          if r[j] != x {
            assert r[j] in t[1..];
            var k :| 0 <= k < |t[1..]| && t[1..][k] == r[j];
            assert Before(t[0], t[k + 1]);
          }
        } else {
          assert r[i] == rest[i - 1] && r[j] == rest[j - 1];
        }
      }
    }
  }

  ghost predicate PositionsIncreasing(t: seq<Tagged>) {
    forall i, j :: 0 <= i < j < |t| ==> t[i].pos < t[j].pos
  }

  lemma {:induction false} SortAscSorted(t: seq<Tagged>)
    requires PositionsIncreasing(t)
    ensures SortedBefore(SortAsc(t))
  {
    if t != [] {
      SortAscSorted(t[1..]);
      SortAscPerm(t[1..]);
      forall y | y in SortAsc(t[1..]) ensures t[0].pos < y.pos {
        assert y in multiset(t[1..]);
        var k :| 0 <= k < |t[1..]| && t[1..][k] == y;
        assert t[k + 1] == y;
      }
      InsertSorted(t[0], SortAsc(t[1..]));
    }
  }

  lemma {:induction false} ReverseAt(t: seq<Tagged>)
    ensures |Reverse(t)| == |t|
    ensures forall k :: 0 <= k < |t| ==> Reverse(t)[k] == t[|t| - 1 - k]
    ensures multiset(Reverse(t)) == multiset(t)
  {
    if t != [] {
      ReverseAt(t[1..]);
      assert t == [t[0]] + t[1..];
    }
  }

  lemma OrderedIsTagPermutation(s: seq<Record>)
    ensures |Ordered(s)| == |s|
    ensures multiset(Ordered(s)) == multiset(Tag(s))
  {
    SortAscPerm(Tag(s));
    ReverseAt(SortAsc(Tag(s)));
    assert |multiset(SortAsc(Tag(s)))| == |SortAsc(Tag(s))|;
  }

  /** The feed order is a permutation of the input: there is one entry per
      input challenge, each entry is the challenge at its recorded input
      position, and every input position occurs. */
  lemma OrderedPermutation(s: seq<Record>)
    ensures |Ordered(s)| == |s|
    ensures forall i :: 0 <= i < |Ordered(s)| ==>
      Ordered(s)[i].pos < |s| && Ordered(s)[i].rec == s[Ordered(s)[i].pos]
    ensures forall p :: 0 <= p < |s| ==> Tagged(p, s[p]) in Ordered(s)
  {
    var t := Tag(s);
    var o := Ordered(s);
    OrderedIsTagPermutation(s);
    forall i | 0 <= i < |o| ensures o[i].pos < |s| && o[i].rec == s[o[i].pos] {
      assert o[i] in multiset(t);
      var k :| 0 <= k < |t| && t[k] == o[i];
    }
    forall p | 0 <= p < |s| ensures Tagged(p, s[p]) in o {
      assert t[p] in multiset(o);
    }
  }

  /** The feed order is non-increasing by date, and challenges with equal
      dates appear in the reverse of their input order (a stable ascending
      sort followed by a reverse). */
  lemma OrderedDescending(s: seq<Record>)
    ensures forall i, j :: 0 <= i < j < |Ordered(s)| ==>
      KeyLe(KeyOf(Ordered(s)[j]), KeyOf(Ordered(s)[i]))
    ensures forall i, j :: 0 <= i < j < |Ordered(s)| && KeyLe(KeyOf(Ordered(s)[i]), KeyOf(Ordered(s)[j])) ==>
      Ordered(s)[i].pos > Ordered(s)[j].pos
  {
    var a := SortAsc(Tag(s));
    var o := Ordered(s);
    SortAscSorted(Tag(s));
    ReverseAt(a);
    forall i, j | 0 <= i < j < |o|
      ensures KeyLe(KeyOf(o[j]), KeyOf(o[i]))
      ensures KeyLe(KeyOf(o[i]), KeyOf(o[j])) ==> o[i].pos > o[j].pos
    {
      assert o[i] == a[|a| - 1 - i] && o[j] == a[|a| - 1 - j];
      assert Before(a[|a| - 1 - j], a[|a| - 1 - i]);
    }
  }

  // ---------------------------------------------------------------------------
  // Item fields

  const LONG_CONTEST_URL: string := "https://community.topcoder.com" + "/longcontest/?module=ViewProblemStatement&rd="
  const DETAILS_URL: string := "https://www.topcoder.com" + "/challenge-details/"

  /** The item link: the long-contest problem page when the record has a
      truthy `problemId`, else the challenge-details page. */
  function Link(c: Record): (l: string)
    ensures Truthy(Get(c, "problemId")) ==> HasPrefix(l, LONG_CONTEST_URL)
    ensures !Truthy(Get(c, "problemId")) ==> HasPrefix(l, DETAILS_URL)
  {
    if Truthy(Get(c, "problemId")) then
      var r := ToJsString(Get(c, "roundId")) + "&pm=" + ToJsString(Get(c, "problemId"));
      PrefixSplit(LONG_CONTEST_URL, r);
      LONG_CONTEST_URL + r
    else
      var r := ToJsString(Get(c, "challengeId")) + "/?type=" + ToJsString(Get(c, "challengeCommunity"));
      PrefixSplit(DETAILS_URL, r);
      DETAILS_URL + r
  }

  /** The guid: `challengeId || problemId`. */
  function Guid(c: Record): (g: Json)
    ensures Truthy(g) <==> Truthy(Get(c, "challengeId")) || Truthy(Get(c, "problemId"))
  {
    Or(Get(c, "challengeId"), Get(c, "problemId"))
  }

  /** The two templates differ at their ninth character. */
  lemma TemplatesDiffer()
    ensures LONG_CONTEST_URL[8] == 'c' && DETAILS_URL[8] == 'w'
  {
  }

  /** `p + r` starts with `p`, and what follows `p` is `r`. */
  lemma PrefixSplit(p: string, r: string)
    ensures HasPrefix(p + r, p) && (p + r)[|p|..] == r
  {
    assert (p + r)[..|p|] == p;
  }

  /** A string that starts with one template does not start with the other. */
  lemma TemplatesExclusive(l: string)
    ensures HasPrefix(l, LONG_CONTEST_URL) ==> !HasPrefix(l, DETAILS_URL)
  {
    TemplatesDiffer();
    if HasPrefix(l, LONG_CONTEST_URL) {
      assert l[8] == LONG_CONTEST_URL[8];
    }
  }

  /** The link template is chosen by the truthiness of `problemId` alone: the
      long-contest template exactly when it is truthy, the challenge-details
      template otherwise; the two templates cannot be confused. */
  lemma LinkTemplate(c: Record)
    ensures HasPrefix(Link(c), LONG_CONTEST_URL) <==> Truthy(Get(c, "problemId"))
    ensures HasPrefix(Link(c), DETAILS_URL) <==> !Truthy(Get(c, "problemId"))
    ensures Truthy(Get(c, "problemId")) ==>
      Link(c)[|LONG_CONTEST_URL|..] == ToJsString(Get(c, "roundId")) + "&pm=" + ToJsString(Get(c, "problemId"))
    ensures !Truthy(Get(c, "problemId")) ==>
      Link(c)[|DETAILS_URL|..] == ToJsString(Get(c, "challengeId")) + "/?type=" + ToJsString(Get(c, "challengeCommunity"))
  {
    TemplatesExclusive(Link(c));
    if Truthy(Get(c, "problemId")) {
      var r := ToJsString(Get(c, "roundId")) + "&pm=" + ToJsString(Get(c, "problemId"));
      assert Link(c) == LONG_CONTEST_URL + r;
      PrefixSplit(LONG_CONTEST_URL, r);
    } else {
      var r := ToJsString(Get(c, "challengeId")) + "/?type=" + ToJsString(Get(c, "challengeCommunity"));
      assert Link(c) == DETAILS_URL + r;
      PrefixSplit(DETAILS_URL, r);
    }
  }

  /** The guid is the challenge id when that is truthy, else the problem id;
      a truthy guid is one of the two ids. */
  lemma GuidChoice(c: Record)
    ensures Truthy(Get(c, "challengeId")) ==> Guid(c) == Get(c, "challengeId")
    ensures !Truthy(Get(c, "challengeId")) ==> Guid(c) == Get(c, "problemId")
    ensures Truthy(Guid(c)) <==> Truthy(Get(c, "challengeId")) || Truthy(Get(c, "problemId"))
  {
  }

  // ---------------------------------------------------------------------------
  // The description blurb

  /** The blurb's sections, in the order the blurb lists them. */
  datatype Section = Requirements | Platforms | Technologies | Prize
                   | RegistrationPeriod | OpenForRegistration | SubmissionsDue | Type

  const SectionOrder: seq<Section> :=
    [Requirements, Platforms, Technologies, Prize, RegistrationPeriod, OpenForRegistration, SubmissionsDue, Type]

  /** The position of a section in `SectionOrder`. */
  function Rank(s: Section): (r: nat)
    ensures r < |SectionOrder| && SectionOrder[r] == s
  {
    match s
    case Requirements => 0
    case Platforms => 1
    case Technologies => 2
    case Prize => 3
    case RegistrationPeriod => 4
    case OpenForRegistration => 5
    case SubmissionsDue => 6
    case Type => 7
  }

  /** The challenge fields whose truthiness a section's test reads. */
  function GuardedBy(s: Section): seq<string> {
    match s
    case Requirements => ["detailedRequirements"]
    case Platforms => ["platforms"]
    case Technologies => ["technologies"]
    case Prize => ["firstPlacePrize", "totalPrize"]
    case RegistrationPeriod => ["registrationStartDate", "registrationEndDate"]
    case OpenForRegistration => ["registrationOpen"]
    case SubmissionsDue => ["submissionEndDate"]
    case Type => ["challengeType", "challengeCommunity"]
  }

  /** The field test under which a section is written. */
  predicate Guard(c: Record, s: Section) {
    match s
    case Requirements => Truthy(Get(c, "detailedRequirements"))
    case Platforms => Truthy(Get(c, "platforms"))
    case Technologies => Truthy(Get(c, "technologies"))
    case Prize => Truthy(Get(c, "firstPlacePrize")) || Truthy(Get(c, "totalPrize"))
    case RegistrationPeriod => Truthy(Get(c, "registrationStartDate")) || Truthy(Get(c, "registrationEndDate"))
    case OpenForRegistration => Truthy(Get(c, "registrationOpen"))
    case SubmissionsDue => Truthy(Get(c, "submissionEndDate"))
    case Type => Truthy(Get(c, "challengeType")) || Truthy(Get(c, "challengeCommunity"))
  }

  /** A section is written exactly when one of the fields it tests is
      truthy, and so only when the challenge has such a field: a section
      whose fields are all missing is left out. */
  lemma GuardFields(c: Record, s: Section)
    ensures Guard(c, s) <==> exists i :: 0 <= i < |GuardedBy(s)| && Truthy(Get(c, GuardedBy(s)[i]))
    ensures Guard(c, s) ==> exists i :: 0 <= i < |GuardedBy(s)| && GuardedBy(s)[i] in c
  {
    var fs := GuardedBy(s);
    if Guard(c, s) {
      var i := if Truthy(Get(c, fs[0])) then 0 else 1;
      assert Truthy(Get(c, fs[i])) && fs[i] in c;
    }
    if exists i :: 0 <= i < |fs| && Truthy(Get(c, fs[i])) {
      var i :| 0 <= i < |fs| && Truthy(Get(c, fs[i]));
      assert i == 0 || i == 1;
    }
  }

  /** Sanitize to the safe tag subset, then truncate tag-safely. */
  function TruncAndSanitize(libs: Libs, html: string, len: nat): string {
    libs.truncate(libs.sanitize(html), len)
  }

  /** The `<div><%- key %>: <%- value %></div>` template. */
  function Template(libs: Libs, key: string, value: string): (h: string)
    ensures HasPrefix(h, "<div>")
  {
    "<div>" + libs.escape(key) + ": " + libs.escape(value) + "</div>"
  }

  /** The HTML of one section. */
  function SectionHtml(libs: Libs, c: Record, s: Section): (h: string)
    ensures s != Requirements ==> HasPrefix(h, "<div>")
    ensures s == Requirements ==> |h| >= |"<br />"|
  {
    match s
    case Requirements =>
      TruncAndSanitize(libs, ToJsString(Get(c, "detailedRequirements")), Config.DESC_TRUNC_LENGTH) + "<br />"
    case Platforms => Template(libs, "Platforms", JoinValue(Get(c, "platforms"), " / "))
    case Technologies => Template(libs, "Technologies", JoinValue(Get(c, "technologies"), " / "))
    case Prize =>
      Template(libs, "Prize", ToJsString(Get(c, "totalPrize")) + " (" + ToJsString(Get(c, "firstPlacePrize")) + ")")
    case RegistrationPeriod =>
      Template(libs, "Registration Period",
        libs.formatDate(Get(c, "registrationStartDate")) + " - " + libs.formatDate(Get(c, "registrationEndDate")))
    case OpenForRegistration => Template(libs, "Open for registration", ToJsString(Get(c, "registrationOpen")))
    case SubmissionsDue => Template(libs, "Submissions Due", libs.formatDate(Get(c, "submissionEndDate")))
    case Type =>
      Template(libs, "Type", ToJsString(Get(c, "challengeType")) + " / " + ToJsString(Get(c, "challengeCommunity")))
  }

  lemma SectionHtmlNonEmpty(libs: Libs, c: Record, s: Section)
    ensures SectionHtml(libs, c, s) != ""
  {
    if s == Requirements {
      assert |SectionHtml(libs, c, s)| >= |"<br />"|;
    } else {
      assert HasPrefix(SectionHtml(libs, c, s), "<div>");
    }
  }

  /** A section's HTML when its guard holds, else nothing. */
  function Piece(libs: Libs, c: Record, s: Section): string {
    if Guard(c, s) then SectionHtml(libs, c, s) else ""
  }

  /** The sections of `ss` whose guards hold, in the order of `ss`. */
  function Active(c: Record, ss: seq<Section>): seq<Section> {
    if ss == [] then [] else (if Guard(c, ss[0]) then [ss[0]] else []) + Active(c, ss[1..])
  }

  /** The HTML of the sections `ss`, one after the other. */
  function Render(libs: Libs, c: Record, ss: seq<Section>): string {
    if ss == [] then "" else SectionHtml(libs, c, ss[0]) + Render(libs, c, ss[1..])
  }

  /** The guarded pieces of `ss`, one after the other. */
  function Pieces(libs: Libs, c: Record, ss: seq<Section>): string {
    if ss == [] then "" else Piece(libs, c, ss[0]) + Pieces(libs, c, ss[1..])
  }

  /** The description blurb of a challenge: the sections in their fixed order,
      each one written only under its guard. */
  function Blurb(libs: Libs, c: Record): string {
    Pieces(libs, c, SectionOrder)
  }

  lemma {:induction false} RenderActive(libs: Libs, c: Record, ss: seq<Section>)
    ensures Render(libs, c, Active(c, ss)) == Pieces(libs, c, ss)
  {
    if ss != [] {
      RenderActive(libs, c, ss[1..]);
      if Guard(c, ss[0]) {
        assert Active(c, ss) == [ss[0]] + Active(c, ss[1..]);
        assert ([ss[0]] + Active(c, ss[1..]))[1..] == Active(c, ss[1..]);
      } else {
        assert Active(c, ss) == Active(c, ss[1..]);
      }
    }
  }

  ghost predicate RankIncreasing(ss: seq<Section>) {
    forall i, j :: 0 <= i < j < |ss| ==> Rank(ss[i]) < Rank(ss[j])
  }

  /** The sections of `Active(c, ss)` are those of `ss` whose guards hold. */
  lemma {:induction false} ActiveMembers(c: Record, ss: seq<Section>)
    ensures forall s :: s in Active(c, ss) <==> s in ss && Guard(c, s)
  {
    if ss != [] {
      ActiveMembers(c, ss[1..]);
      assert ss == [ss[0]] + ss[1..];
    }
  }

  /** Putting a section of smaller rank in front keeps the ranks increasing. */
  lemma ConsIncreasing(x: Section, a: seq<Section>)
    requires RankIncreasing(a)
    requires forall s :: s in a ==> Rank(x) < Rank(s)
    ensures RankIncreasing([x] + a)
  {
    var b := [x] + a;
    forall i, j | 0 <= i < j < |b| ensures Rank(b[i]) < Rank(b[j]) {
      assert b[j] == a[j - 1];
      if i > 0 {
        assert b[i] == a[i - 1];
      }
    }
  }

  /** Selecting sections keeps their ranks increasing. */
  lemma {:induction false} ActiveIncreasing(c: Record, ss: seq<Section>)
    requires RankIncreasing(ss)
    ensures RankIncreasing(Active(c, ss))
  {
    if ss != [] {
      var tail := ss[1..];
      assert RankIncreasing(tail) by {
        forall i, j | 0 <= i < j < |tail| ensures Rank(tail[i]) < Rank(tail[j]) {
          assert tail[i] == ss[i + 1] && tail[j] == ss[j + 1];
        }
      }
      ActiveIncreasing(c, tail);
      ActiveMembers(c, tail);
      var a := Active(c, tail);
      forall s | s in a ensures Rank(ss[0]) < Rank(s) {
        var k :| 0 <= k < |tail| && tail[k] == s;
        assert tail[k] == ss[k + 1];
      }
      if Guard(c, ss[0]) {
        ConsIncreasing(ss[0], a);
      }
    }
  }

  /** The rank of each section is its position in `SectionOrder`. */
  lemma RankOfOrder(i: nat)
    requires i < |SectionOrder|
    ensures Rank(SectionOrder[i]) == i
  {
    if i == 0 {} else if i == 1 {} else if i == 2 {} else if i == 3 {}
    else if i == 4 {} else if i == 5 {} else if i == 6 {} else {}
  }

  /** The blurb is the concatenation of exactly the sections whose guards
      hold, each once, in the fixed order requirements, platforms,
      technologies, prize, registration period, open for registration,
      submissions due, type. */
  lemma BlurbSections(libs: Libs, c: Record)
    ensures Blurb(libs, c) == Render(libs, c, Active(c, SectionOrder))
    ensures forall s :: s in Active(c, SectionOrder) <==> Guard(c, s)
    ensures forall i, j :: 0 <= i < j < |Active(c, SectionOrder)| ==>
      Rank(Active(c, SectionOrder)[i]) < Rank(Active(c, SectionOrder)[j])
  {
    RenderActive(libs, c, SectionOrder);
    assert RankIncreasing(SectionOrder) by {
      forall i, j | 0 <= i < j < |SectionOrder| ensures Rank(SectionOrder[i]) < Rank(SectionOrder[j]) {
        RankOfOrder(i);
        RankOfOrder(j);
      }
    }
    ActiveMembers(c, SectionOrder);
    ActiveIncreasing(c, SectionOrder);
    forall s: Section ensures s in SectionOrder {
      assert SectionOrder[Rank(s)] == s;
    }
  }

  lemma PieceEmptyIff(libs: Libs, c: Record, s: Section)
    ensures Piece(libs, c, s) == "" <==> !Guard(c, s)
  {
    SectionHtmlNonEmpty(libs, c, s);
  }

  lemma {:induction false} PiecesEmptyIff(libs: Libs, c: Record, ss: seq<Section>)
    ensures Pieces(libs, c, ss) == "" <==> forall i :: 0 <= i < |ss| ==> !Guard(c, ss[i])
  {
    if ss != [] {
      PiecesEmptyIff(libs, c, ss[1..]);
      PieceEmptyIff(libs, c, ss[0]);
      assert forall i :: 1 <= i < |ss| ==> ss[i] == ss[1..][i - 1];
    }
  }

  /** The blurb is empty exactly when no guard holds: an absent field leaves
      no placeholder text, and a present section is never empty. */
  lemma BlurbEmptyIff(libs: Libs, c: Record)
    ensures Blurb(libs, c) == "" <==> forall s :: !Guard(c, s)
  {
    PiecesEmptyIff(libs, c, SectionOrder);
    forall s ensures Guard(c, s) ==> exists i :: 0 <= i < |SectionOrder| && Guard(c, SectionOrder[i]) {
      assert SectionOrder[Rank(s)] == s;
    }
  }

  /** With truthy requirements text, the blurb opens with that text sanitized,
      truncated to `DESC_TRUNC_LENGTH`, and followed by a line break. */
  lemma BlurbOpensWithRequirements(libs: Libs, c: Record)
    requires Truthy(Get(c, "detailedRequirements"))
    ensures HasPrefix(Blurb(libs, c),
      TruncAndSanitize(libs, ToJsString(Get(c, "detailedRequirements")), Config.DESC_TRUNC_LENGTH) + "<br />")
  {
    assert SectionOrder[0] == Requirements;
    var head := Piece(libs, c, Requirements);
    assert Blurb(libs, c) == head + Pieces(libs, c, SectionOrder[1..]);
  }

  /** One step of building the blurb: with `before` holding the sections
      ahead of position `k`, appending the piece at `k` gives the sections
      ahead of `k + 1`. */
  lemma Advance(libs: Libs, c: Record, k: nat, before: string, after: string)
    requires k < |SectionOrder|
    requires before + Pieces(libs, c, SectionOrder[k..]) == Blurb(libs, c)
    requires after == before + Piece(libs, c, SectionOrder[k])
    ensures after + Pieces(libs, c, SectionOrder[k + 1..]) == Blurb(libs, c)
  {
    PiecesStep(libs, c, SectionOrder, k);
  }

  lemma PiecesStep(libs: Libs, c: Record, ss: seq<Section>, k: nat)
    requires k < |ss|
    ensures Pieces(libs, c, ss[k..]) == Piece(libs, c, ss[k]) + Pieces(libs, c, ss[k + 1..])
  {
    assert ss[k..][1..] == ss[k + 1..];
  }

  /** Appends one section of the blurb when its field test holds. */
  method AppendSection(libs: Libs, c: Record, s: Section, html: string) returns (out: string)
    ensures out == html + Piece(libs, c, s)
  {
    out := html;
    match s
    case Requirements =>
      if Truthy(Get(c, "detailedRequirements")) {
        out := out + TruncAndSanitize(libs, ToJsString(Get(c, "detailedRequirements")), Config.DESC_TRUNC_LENGTH);
        out := out + "<br />";
      }
    case Platforms =>
      if Truthy(Get(c, "platforms")) {
        out := out + Template(libs, "Platforms", JoinValue(Get(c, "platforms"), " / "));
      }
    case Technologies =>
      if Truthy(Get(c, "technologies")) {
        out := out + Template(libs, "Technologies", JoinValue(Get(c, "technologies"), " / "));
      }
    case Prize =>
      if Truthy(Get(c, "firstPlacePrize")) || Truthy(Get(c, "totalPrize")) {
        out := out + Template(libs, "Prize",
          ToJsString(Get(c, "totalPrize")) + " (" + ToJsString(Get(c, "firstPlacePrize")) + ")");
      }
    case RegistrationPeriod =>
      if Truthy(Get(c, "registrationStartDate")) || Truthy(Get(c, "registrationEndDate")) {
        out := out + Template(libs, "Registration Period",
          libs.formatDate(Get(c, "registrationStartDate")) + " - " + libs.formatDate(Get(c, "registrationEndDate")));
      }
    case OpenForRegistration =>
      if Truthy(Get(c, "registrationOpen")) {
        out := out + Template(libs, "Open for registration", ToJsString(Get(c, "registrationOpen")));
      }
    case SubmissionsDue =>
      if Truthy(Get(c, "submissionEndDate")) {
        out := out + Template(libs, "Submissions Due", libs.formatDate(Get(c, "submissionEndDate")));
      }
    case Type =>
      if Truthy(Get(c, "challengeType")) || Truthy(Get(c, "challengeCommunity")) {
        out := out + Template(libs, "Type",
          ToJsString(Get(c, "challengeType")) + " / " + ToJsString(Get(c, "challengeCommunity")));
      }
  }

  /** Builds the blurb by appending the sections in their fixed order, each
      one only when its field test holds. */
  method BuildChallengeInfoBlurb(libs: Libs, c: Record) returns (html: string)
    ensures html == Blurb(libs, c)
  {
    html := "";
    assert SectionOrder[0..] == SectionOrder;
    ghost var k := 0;
    ghost var before := html;
    html := AppendSection(libs, c, Requirements, html);
    Advance(libs, c, k, before, html);
    before, k := html, k + 1;
    html := AppendSection(libs, c, Platforms, html);
    Advance(libs, c, k, before, html);
    before, k := html, k + 1;
    html := AppendSection(libs, c, Technologies, html);
    Advance(libs, c, k, before, html);
    before, k := html, k + 1;
    html := AppendSection(libs, c, Prize, html);
    Advance(libs, c, k, before, html);
    before, k := html, k + 1;
    html := AppendSection(libs, c, RegistrationPeriod, html);
    Advance(libs, c, k, before, html);
    before, k := html, k + 1;
    html := AppendSection(libs, c, OpenForRegistration, html);
    Advance(libs, c, k, before, html);
    before, k := html, k + 1;
    html := AppendSection(libs, c, SubmissionsDue, html);
    Advance(libs, c, k, before, html);
    before, k := html, k + 1;
    html := AppendSection(libs, c, Type, html);
    Advance(libs, c, k, before, html);
    assert SectionOrder[k + 1..] == [];
  }

  // ---------------------------------------------------------------------------
  // The feed

  /** The RSS feed under construction: `feed.item(...)` appends one item. */
  class Rss {
    var items: seq<FeedItem>

    constructor ()
      ensures items == []
    {
      items := [];
    }

    method Item(it: FeedItem)
      modifies this
      ensures items == old(items) + [it]
    {
      items := items + [it];
    }
  }

  /** The feed item of one challenge. */
  function ToItem(libs: Libs, c: Record): FeedItem {
    FeedItem(Get(c, "challengeName"), Link(c), Guid(c), DateOf(c), Blurb(libs, c))
  }

  /** The fields of one item: the name as title, the registration start as
      date, the link and guid as chosen by `problemId` and `challengeId`,
      and a description that is empty iff no section applies. */
  lemma ToItemFields(libs: Libs, c: Record)
    ensures ToItem(libs, c).title == Get(c, "challengeName")
    ensures ToItem(libs, c).date == Get(c, "registrationStartDate")
    ensures HasPrefix(ToItem(libs, c).url, LONG_CONTEST_URL) <==> Truthy(Get(c, "problemId"))
    ensures Truthy(ToItem(libs, c).guid) <==> Truthy(Get(c, "challengeId")) || Truthy(Get(c, "problemId"))
    ensures ToItem(libs, c).description == "" <==> forall s :: !Guard(c, s)
  {
    LinkTemplate(c);
    BlurbEmptyIff(libs, c);
  }

  /** The items of the feed for `challenges`, in feed order. */
  function FeedItems(libs: Libs, challenges: seq<Record>): (f: seq<FeedItem>)
    ensures |f| == |challenges|
  {
    var o := Ordered(challenges);
    seq(|o|, i requires 0 <= i < |o| => ToItem(libs, o[i].rec))
  }

  /** The feed holds one item per challenge, the item of the challenge at the
      recorded input position; every challenge gets its item; and the item
      dates are non-increasing. */
  lemma FeedItemsSpec(libs: Libs, challenges: seq<Record>)
    ensures |FeedItems(libs, challenges)| == |challenges|
    ensures forall i :: 0 <= i < |challenges| ==>
      Ordered(challenges)[i].pos < |challenges| &&
      FeedItems(libs, challenges)[i] == ToItem(libs, challenges[Ordered(challenges)[i].pos])
    ensures forall p :: 0 <= p < |challenges| ==> ToItem(libs, challenges[p]) in FeedItems(libs, challenges)
    ensures forall i, j :: 0 <= i < j < |challenges| ==>
      KeyLe(FeedItems(libs, challenges)[j].date, FeedItems(libs, challenges)[i].date)
  {
    var o := Ordered(challenges);
    var f := FeedItems(libs, challenges);
    OrderedPermutation(challenges);
    OrderedDescending(challenges);
    forall p | 0 <= p < |challenges| ensures ToItem(libs, challenges[p]) in f {
      var i :| 0 <= i < |o| && o[i] == Tagged(p, challenges[p]);
      assert f[i] == ToItem(libs, challenges[p]);
    }
  }

  /** `buildFeedXML`: sorts, reverses, adds one item per challenge, and
      serializes the feed. */
  method BuildFeedXML(libs: Libs, challenges: seq<Record>) returns (xml: string)
    ensures xml == libs.xml(FeedItems(libs, challenges))
  {
    var feed := new Rss();
    var ordered := Ordered(challenges);
    var i := 0;
    while i < |ordered|
      invariant 0 <= i <= |ordered|
      invariant |feed.items| == i
      invariant forall k :: 0 <= k < i ==> feed.items[k] == ToItem(libs, ordered[k].rec)
    {
      var c := ordered[i].rec;
      var description := BuildChallengeInfoBlurb(libs, c);
      feed.Item(FeedItem(Get(c, "challengeName"), Link(c), Guid(c), DateOf(c), description));
      i := i + 1;
    }
    assert feed.items == FeedItems(libs, challenges);
    xml := libs.xml(feed.items);
  }
}
