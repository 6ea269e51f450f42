/** internal/discovery/discovery.go: pagination, the image inventory and the choice of an image. */
module Discovery {
  import opened Basics

  // --- pagination --------------------------------------------------------------------------------------------------

  datatype Fetch<T> = Page(items: seq<T>, next: string) | FetchFailed

  /** `Canceled`: the context ended before the next fetch. `Repeated`: the provider repeated a token. */
  datatype Listing<T> = Complete(items: seq<T>) | Canceled | ProviderFailed | Repeated

  /** The token of the `n`-th fetch, if the chain gets that far. */
  function Token<T>(fetch: string -> Fetch<T>, n: nat): Option<string> {
    if n == 0 then Some("")
    else
      var page := Token(fetch, n - 1);
      if page.Some? && fetch(page.value).Page? && fetch(page.value).next != "" then Some(fetch(page.value).next)
      else None
  }

  /** The `n`-th page is the last one. */
  predicate Ends<T>(fetch: string -> Fetch<T>, n: nat) {
    Token(fetch, n).Some? && fetch(Token(fetch, n).value).Page? && fetch(Token(fetch, n).value).next == ""
  }

  /** The items of the first `n` pages in order. */
  function Chain<T>(fetch: string -> Fetch<T>, n: nat): seq<T> {
    if n == 0 then []
    else
      var page := Token(fetch, n - 1);
      Chain(fetch, n - 1) + (if page.Some? && fetch(page.value).Page? then fetch(page.value).items else [])
  }

  lemma {:induction false} ChainIsPrefixClosed<T>(fetch: string -> Fetch<T>, n: nat, m: nat)
    requires m <= n && Token(fetch, n).Some?
    ensures Token(fetch, m).Some?
    ensures m < n ==> fetch(Token(fetch, m).value).Page? && fetch(Token(fetch, m).value).next != ""
  {
    if m < n {
      ChainIsPrefixClosed(fetch, n - 1, m);
    }
  }

  /** Once a token repeats the chain goes round for ever. */
  lemma {:induction false} GoesRound<T>(fetch: string -> Fetch<T>, j: nat, k: nat, m: nat) returns (q: nat)
    requires j < k && Token(fetch, k).Some? && Token(fetch, k) == Token(fetch, j) && m >= j
    ensures j <= q < k && Token(fetch, m) == Token(fetch, q)
  {
    if m == j {
      q := j;
    } else {
      q := GoesRound(fetch, j, k, m - 1);
      ChainIsPrefixClosed(fetch, k, q);
      q := if q + 1 == k then j else q + 1;
    }
  }

  lemma RepeatedNeverEnds<T>(fetch: string -> Fetch<T>, j: nat, k: nat)
    requires j < k && Token(fetch, k).Some? && Token(fetch, k) == Token(fetch, j)
    ensures forall n: nat :: !Ends(fetch, n)
  {
    forall n: nat
      ensures !Ends(fetch, n)
    {
      if n >= j {
        var q := GoesRound(fetch, j, k, n);
        ChainIsPrefixClosed(fetch, k, q);
      } else {
        ChainIsPrefixClosed(fetch, k, n);
      }
    }
  }

  lemma EndsOnce<T>(fetch: string -> Fetch<T>, n: nat, m: nat)
    requires Ends(fetch, n) && Token(fetch, m).Some?
    ensures m <= n
  {
    if m > n {
      ChainIsPrefixClosed(fetch, m, n);
    }
  }

  /** The tokens fetched so far, none twice. */
  ghost predicate Trail<T(!new)>(fetch: string -> Fetch<T>, fetched: seq<string>) {
    && (forall k | 0 <= k < |fetched| :: Token(fetch, k) == Some(fetched[k]))
    && (forall i, j | 0 <= i < j < |fetched| :: fetched[i] != fetched[j])
  }

  /** `seen` holds the non-empty tokens up to the next one to fetch. */
  ghost predicate Marks(seen: set<string>, fetched: seq<string>, page: string) {
    page !in fetched && forall t :: t in seen <==> t != "" && (t in fetched || t == page)
  }

  lemma TrailGrows<T(!new)>(fetch: string -> Fetch<T>, fetched: seq<string>, page: string)
    requires Trail(fetch, fetched) && Token(fetch, |fetched|) == Some(page) && page !in fetched
    ensures Trail(fetch, fetched + [page])
  {
    hide Token;
    var tokens := fetched + [page];
    forall k | 0 <= k < |tokens|
      ensures Token(fetch, k) == Some(tokens[k])
    {
    }
    forall i, j | 0 <= i < j < |tokens|
      ensures tokens[i] != tokens[j]
    {
    }
  }

  lemma NextToken<T(!new)>(fetch: string -> Fetch<T>, n: nat, page: string)
    requires Token(fetch, n) == Some(page) && fetch(page).Page?
    ensures fetch(page).next != "" ==> Token(fetch, n + 1) == Some(fetch(page).next)
    ensures Chain(fetch, n + 1) == Chain(fetch, n) + fetch(page).items
  {
  }

  lemma NewPage(seen: set<string>, fetched: seq<string>, page: string)
    requires Marks(seen, fetched, page)
    ensures page !in fetched
  {
  }

  lemma MarksGrow(seen: set<string>, fetched: seq<string>, page: string, next: string)
    requires Marks(seen, fetched, page) && next != "" && next !in seen && (fetched == [] ==> page == "")
    requires fetched != [] ==> fetched[0] == ""
    ensures Marks(seen + {next}, fetched + [page], next)
  {
  }

  lemma AlreadySeen<T(!new)>(fetch: string -> Fetch<T>, fetched: seq<string>, page: string, seen: set<string>)
    requires Trail(fetch, fetched) && Token(fetch, |fetched|) == Some(page) && Marks(seen, fetched, page)
    requires fetch(page).Page? && fetch(page).next in seen
    ensures forall n: nat :: !Ends(fetch, n)
  {
    var next := fetch(page).next;
    NextToken(fetch, |fetched|, page);
    var j := |fetched|;
    if next in fetched {
      j :| 0 <= j < |fetched| && fetched[j] == next;
    }
    assert Token(fetch, j) == Some(next);
    RepeatedNeverEnds(fetch, j, |fetched| + 1);
  }

  /** `all`: with `cancelAt` the number of fetches before the context ends. Success exactly when the chain from the
      empty token ends in time, with the in-order concatenation of its pages; a repeated token means that it never
      ends; and no page is fetched twice. */
  method All<T(!new)>(fetch: string -> Fetch<T>, cancelAt: nat) returns (r: Listing<T>, fetched: seq<string>)
    ensures Trail(fetch, fetched)
    ensures r.Complete? <==> exists n: nat :: n < cancelAt && Ends(fetch, n)
    ensures r.Complete? ==> |fetched| > 0 && Ends(fetch, |fetched| - 1) && r.items == Chain(fetch, |fetched|)
    ensures r.Complete? ==> forall n: nat | Ends(fetch, n) :: n == |fetched| - 1
    ensures r.Repeated? ==> forall n: nat :: !Ends(fetch, n)
    ensures r.Canceled? ==> |fetched| == cancelAt
  {
    var result: seq<T> := [];
    var seen: set<string> := {};
    var page := "";
    fetched := [];
    assert Trail(fetch, fetched) && Marks(seen, fetched, page) && Token(fetch, 0) == Some("") && Chain(fetch, 0) == [];
    hide Trail, Marks, Token, Chain, Ends;
    while true
      invariant |fetched| <= cancelAt && Token(fetch, |fetched|) == Some(page)
      invariant Trail(fetch, fetched) && Marks(seen, fetched, page)
      invariant if fetched == [] then page == "" else fetched[0] == ""
      invariant result == Chain(fetch, |fetched|)
      decreases cancelAt - |fetched|
    {
      if |fetched| == cancelAt {
        NotYet(fetch, |fetched|);
        return Canceled, fetched;
      }
      var p := fetch(page);
      NewPage(seen, fetched, page);
      TrailGrows(fetch, fetched, page);
      if p.FetchFailed? {
        Broken(fetch, |fetched|, page);
        return ProviderFailed, fetched + [page];
      }
      NextToken(fetch, |fetched|, page);
      result := result + p.items;
      if p.next == "" {
        LastPage(fetch, |fetched|, page);
        LastPageIsUnique(fetch, |fetched|);
        return Complete(result), fetched + [page];
      }
      if p.next in seen {
        AlreadySeen(fetch, fetched, page, seen);
        return Repeated, fetched + [page];
      }
      MarksGrow(seen, fetched, page, p.next);
      fetched := fetched + [page];
      seen := seen + {p.next};
      page := p.next;
    }
    assert false;
  }

  lemma LastPage<T(!new)>(fetch: string -> Fetch<T>, n: nat, page: string)
    requires Token(fetch, n) == Some(page) && fetch(page).Page? && fetch(page).next == ""
    ensures Ends(fetch, n)
  {
  }

  lemma LastPageIsUnique<T(!new)>(fetch: string -> Fetch<T>, n: nat)
    requires Ends(fetch, n)
    ensures forall m: nat | Ends(fetch, m) :: m == n
  {
    forall m: nat | Ends(fetch, m)
      ensures m == n
    {
      EndsOnce(fetch, n, m);
      EndsOnce(fetch, m, n);
    }
  }

  lemma NotYet<T>(fetch: string -> Fetch<T>, n: nat)
    requires Token(fetch, n).Some?
    ensures forall m: nat | m < n :: !Ends(fetch, m)
  {
    forall m: nat | m < n
      ensures !Ends(fetch, m)
    {
      ChainIsPrefixClosed(fetch, n, m);
    }
  }

  lemma Broken<T>(fetch: string -> Fetch<T>, n: nat, page: string)
    requires Token(fetch, n) == Some(page) && fetch(page).FetchFailed?
    ensures forall m: nat :: !Ends(fetch, m)
  {
    forall m: nat
      ensures !Ends(fetch, m)
    {
      if m < n {
        ChainIsPrefixClosed(fetch, n, m);
      } else if m > n && Token(fetch, m).Some? {
        ChainIsPrefixClosed(fetch, m, n);
      }
    }
  }

  /** If only tokens of a finite set are ever returned, the pages fetched are at most one more than its elements, so the
      listing ends by itself. */
  lemma FetchesAreBounded<T(!new)>(fetch: string -> Fetch<T>, universe: set<string>, fetched: seq<string>)
    requires forall t | fetch(t).Page? && fetch(t).next != "" :: fetch(t).next in universe
    requires Trail(fetch, fetched)
    ensures |fetched| <= |universe| + 1
  {
    if fetched != [] {
      forall t | t in fetched[1..]
        ensures t in universe
      {
        var k :| 1 <= k < |fetched| && fetched[k] == t;
        assert Token(fetch, k) == Some(t) && Token(fetch, k - 1).Some?;
      }
      DistinctFit(fetched[1..], universe);
    }
  }

  lemma {:induction false} DistinctFit(s: seq<string>, universe: set<string>)
    requires forall t | t in s :: t in universe
    requires forall i, j | 0 <= i < j < |s| :: s[i] != s[j]
    ensures |s| <= |universe|
  {
    if s != [] {
      assert forall t | t in s[1..] :: t in universe - {s[0]};
      DistinctFit(s[1..], universe - {s[0]});
    }
  }

  // --- image inventory ---------------------------------------------------------------------------------------------

  datatype Image = Image(id: string, name: string, compartment: string, system: string, version: string, created: int)

  /** Go's `<` on strings. */
  predicate Less(a: string, b: string) {
    b != "" && (a == "" || a[0] < b[0] || (a[0] == b[0] && Less(a[1..], b[1..])))
  }

  /** `a` and `b` agree in the first `n` places, and then `a` ends or has the lesser character. */
  predicate PartsAt(a: string, b: string, n: nat) {
    n <= |a| && n < |b| && a[..n] == b[..n] && (n == |a| || a[n] < b[n])
  }

  lemma {:induction false} LessIsLexicographic(a: string, b: string)
    ensures Less(a, b) <==> exists n: nat :: PartsAt(a, b, n)
  {
    if a != "" && b != "" && a[0] == b[0] {
      LessIsLexicographic(a[1..], b[1..]);
      assert a == [a[0]] + a[1..] && b == [b[0]] + b[1..];
      if Less(a, b) {
        var n: nat :| PartsAt(a[1..], b[1..], n);
        assert PartsAt(a, b, n + 1);
      } else {
        forall n: nat
          ensures !PartsAt(a, b, n)
        {
          if PartsAt(a, b, n) {
            assert a[1..][..n - 1] == a[..n][1..] && b[1..][..n - 1] == b[..n][1..];
            assert PartsAt(a[1..], b[1..], n - 1);
          }
        }
      }
    } else if Less(a, b) {
      assert PartsAt(a, b, 0);
    }
  }

  lemma {:induction false} LessIsTotal(a: string, b: string)
    ensures Less(a, b) || Less(b, a) || a == b
    ensures !(Less(a, b) && Less(b, a)) && !(Less(a, b) && a == b)
  {
    if a != "" && b != "" && a[0] == b[0] {
      LessIsTotal(a[1..], b[1..]);
      assert a == [a[0]] + a[1..] && b == [b[0]] + b[1..];
    }
  }

  lemma {:induction false} LessIsTransitive(a: string, b: string, c: string)
    requires Less(a, b) && Less(b, c)
    ensures Less(a, c)
  {
    if a != "" && a[0] == b[0] == c[0] {
      LessIsTransitive(a[1..], b[1..], c[1..]);
    }
  }

  /** The order of the inventory: newest first, then by identifier. */
  predicate Before(a: Image, b: Image) {
    a.created > b.created || (a.created == b.created && Less(a.id, b.id))
  }

  lemma BeforeIsTotal(a: Image, b: Image)
    requires a.id != b.id
    ensures Before(a, b) <==> !Before(b, a)
  {
    LessIsTotal(a.id, b.id);
  }

  lemma BeforeIsAsymmetric(a: Image, b: Image)
    ensures !(Before(a, b) && Before(b, a))
  {
    LessIsTotal(a.id, b.id);
  }

  /** What is not before `b` is not before anything that `b` is not before. */
  lemma NotBeforeIsTransitive(a: Image, b: Image, c: Image)
    requires !Before(b, a) && !Before(c, b)
    ensures !Before(c, a)
  {
    if a.created == b.created == c.created && Less(c.id, a.id) {
      LessIsTotal(a.id, b.id);
      LessIsTotal(b.id, c.id);
      if a.id != b.id && b.id != c.id {
        LessIsTransitive(a.id, b.id, c.id);
        LessIsTotal(a.id, c.id);
      }
    }
  }

  /** No later image comes before an earlier one; images that agree in age and identifier may be in any order. */
  predicate Ordered(images: seq<Image>) {
    forall i, j | 0 <= i < j < |images| :: !Before(images[j], images[i])
  }

  predicate Unique(images: seq<Image>) {
    forall i, j | 0 <= i < j < |images| :: images[i].id != images[j].id
  }

  function Insert(x: Image, images: seq<Image>): (r: seq<Image>)
    ensures forall y :: y in r <==> y == x || y in images
  {
    if images == [] || Before(x, images[0]) then [x] + images else [images[0]] + Insert(x, images[1..])
  }

  /** `sort.Slice` by `Before`, up to the order of images that agree in age and identifier. */
  function Sort(images: seq<Image>): (r: seq<Image>)
    ensures forall y :: y in r <==> y in images
  {
    if images == [] then [] else Insert(images[0], Sort(images[1..]))
  }

  lemma {:induction false} InsertOrdered(x: Image, images: seq<Image>)
    requires Ordered(images)
    ensures Ordered(Insert(x, images))
  {
    if images != [] {
      if Before(x, images[0]) {
        BeforeIsAsymmetric(x, images[0]);
        forall k | 1 <= k < |images|
          ensures !Before(images[k], x)
        {
          NotBeforeIsTransitive(x, images[0], images[k]);
        }
      } else {
        InsertOrdered(x, images[1..]);
        var rest := Insert(x, images[1..]);
        forall k | 0 <= k < |rest|
          ensures !Before(rest[k], images[0])
        {
          assert rest[k] in rest;
        }
      }
    }
  }

  /** Sorting any inventory puts it in order; with distinct identifiers the order is strict. */
  lemma {:induction false} SortOrdered(images: seq<Image>)
    ensures Ordered(Sort(images))
    ensures Unique(images) ==> Unique(Sort(images)) && Strict(Sort(images))
  {
    if images != [] {
      SortOrdered(images[1..]);
      InsertOrdered(images[0], Sort(images[1..]));
      if Unique(images) {
        assert forall y | y in images[1..] :: y.id != images[0].id;
        InsertUnique(images[0], Sort(images[1..]));
      }
    }
    if Unique(images) {
      StrictlyOrdered(Sort(images));
    }
  }

  predicate Strict(images: seq<Image>) {
    forall i, j | 0 <= i < j < |images| :: Before(images[i], images[j])
  }

  lemma StrictlyOrdered(images: seq<Image>)
    requires Ordered(images) && Unique(images)
    ensures Strict(images)
  {
    forall i, j | 0 <= i < j < |images|
      ensures Before(images[i], images[j])
    {
      BeforeIsTotal(images[i], images[j]);
    }
  }

  lemma {:induction false} InsertUnique(x: Image, images: seq<Image>)
    requires Unique(images) && forall y | y in images :: y.id != x.id
    ensures Unique(Insert(x, images))
  {
    if images != [] && !Before(x, images[0]) {
      InsertUnique(x, images[1..]);
      var rest := Insert(x, images[1..]);
      forall k | 0 <= k < |rest|
        ensures rest[k].id != images[0].id
      {
        assert rest[k] in rest;
      }
    }
  }

  // --- image choice ------------------------------------------------------------------------------------------------

  /** Digits only, at least one. */
  function Digits(s: string): Option<nat> {
    if s == "" || !('0' <= s[|s| - 1] <= '9') then None
    else
      var last := s[|s| - 1] as int - '0' as int;
      if |s| == 1 then Some(last)
      else
        var rest := Digits(s[..|s| - 1]);
        if rest.None? then None else Some(10 * rest.value + last)
  }

  /** `strconv.Atoi` */
  function Atoi(s: string): Option<int> {
    var signed := s != "" && (s[0] == '+' || s[0] == '-');
    var digits := Digits(if signed then s[1..] else s);
    if digits.None? then None
    else
      var n := if signed && s[0] == '-' then 0 - digits.value else digits.value;
      if -0x8000_0000_0000_0000 <= n < 0x8000_0000_0000_0000 then Some(n) else None
  }

  /** The position of the first dot, or the length. */
  function Dot(s: string): (n: nat)
    ensures n <= |s| && (n < |s| ==> s[n] == '.')
  {
    if s == "" || s[0] == '.' then 0 else 1 + Dot(s[1..])
  }

  datatype Version = Version(major: int, minor: int)

  /** `ubuntuVersion` */
  function UbuntuVersion(s: string): Option<Version> {
    var dot := Dot(s);
    if dot == |s| || ' ' in s || '\t' in s then None
    else
      var major, minor := Atoi(s[..dot]), Atoi(s[dot + 1..]);
      if major.Some? && minor.Some? then Some(Version(major.value, minor.value)) else None
  }

  predicate AllDigits(s: string) {
    forall i | 0 <= i < |s| :: '0' <= s[i] <= '9'
  }

  lemma {:induction false} DigitsExactly(s: string)
    ensures Digits(s).Some? <==> s != "" && AllDigits(s)
  {
    if |s| > 1 {
      DigitsExactly(s[..|s| - 1]);
      assert s == s[..|s| - 1] + [s[|s| - 1]];
    }
  }

  function Zeros(k: nat): (s: string)
    ensures |s| == k && forall i | 0 <= i < k :: s[i] == '0'
  {
    if k == 0 then "" else Zeros(k - 1) + "0"
  }

  lemma DigitsSnoc(s: string, d: nat)
    requires d < 10
    ensures Digits(s + [('0' as int + d) as char])
         == if s == "" then Some(d) else if Digits(s).None? then None else Some(10 * Digits(s).value + d)
  {
    var c := ('0' as int + d) as char;
    assert (s + [c])[..|s + [c]| - 1] == s;
  }

  lemma {:induction false} ZerosAreNothing(k: nat)
    ensures k > 0 ==> Digits(Zeros(k)) == Some(0)
  {
    if k > 0 {
      ZerosAreNothing(k - 1);
      DigitsSnoc(Zeros(k - 1), 0);
    }
  }

  lemma {:induction false} DecimalIsRead(k: nat, n: nat)
    ensures Digits(Zeros(k) + Decimal(n)) == Some(n)
    ensures AllDigits(Zeros(k) + Decimal(n)) && Zeros(k) + Decimal(n) != ""
  {
    hide Digits, Zeros;
    var rest := if n < 10 then "" else Decimal(n / 10);
    assert Zeros(k) + Decimal(n) == (Zeros(k) + rest) + [('0' as int + n % 10) as char];
    if n < 10 {
      ZerosAreNothing(k);
      assert Zeros(k) + rest == Zeros(k);
    } else {
      DecimalIsRead(k, n / 10);
    }
    DigitsSnoc(Zeros(k) + rest, n % 10);
    DigitsExactly(Zeros(k) + Decimal(n));
  }

  lemma {:induction false} DotIs(a: string, b: string)
    requires AllDigits(a)
    ensures Dot(a + "." + b) == |a|
  {
    var s := a + "." + b;
    if a != "" {
      assert s[0] == a[0] && s[1..] == a[1..] + "." + b;
      DotIs(a[1..], b);
    }
  }

  lemma NumberIsRead(s: string, n: nat)
    requires Digits(s) == Some(n) && AllDigits(s) && s != ""
    ensures Atoi(s) == if n < 0x8000_0000_0000_0000 then Some(n) else None
  {
    assert '0' <= s[0] <= '9';
    hide Digits;
  }

  lemma NoBlanks(a: string, b: string)
    requires AllDigits(a) && AllDigits(b)
    ensures ' ' !in a + "." + b && '\t' !in a + "." + b
  {
    forall c | c in a + "." + b
      ensures c == '.' || '0' <= c <= '9'
    {
      assert c in a || c == '.' || c in b;
    }
  }

  /** Two numbers with a dot between them, leading zeros or not, are the version they denote, if they are machine
      integers. */
  lemma VersionIsRead(i: nat, major: nat, j: nat, minor: nat)
    ensures UbuntuVersion((Zeros(i) + Decimal(major)) + "." + (Zeros(j) + Decimal(minor)))
         == if major < 0x8000_0000_0000_0000 && minor < 0x8000_0000_0000_0000 then Some(Version(major, minor)) else None
  {
    hide Digits, Zeros, Decimal, Dot, Atoi, AllDigits;
    var a, b := Zeros(i) + Decimal(major), Zeros(j) + Decimal(minor);
    DecimalIsRead(i, major);
    DecimalIsRead(j, minor);
    NumberIsRead(a, major);
    NumberIsRead(b, minor);
    DotIs(a, b);
    NoBlanks(a, b);
    var s := a + "." + b;
    assert s[..|a|] == a && s[|a| + 1..] == b;
  }

  predicate Higher(a: Version, b: Version) {
    a.major > b.major || (a.major == b.major && a.minor > b.minor)
  }

  /** An Ubuntu image whose version is above the one the scan starts with. */
  predicate Candidate(image: Image) {
    image.system == "Canonical Ubuntu" && UbuntuVersion(image.version).Some?
    && Higher(UbuntuVersion(image.version).value, Version(-1, -1))
  }

  function VersionOf(image: Image): Version
    requires Candidate(image)
  {
    UbuntuVersion(image.version).value
  }

  /** Higher version first, then the newer image, then the lesser identifier. */
  predicate Preferred(a: Image, b: Image)
    requires Candidate(a) && Candidate(b)
  {
    || Higher(VersionOf(a), VersionOf(b))
    || (VersionOf(a) == VersionOf(b) && (a.created > b.created || (a.created == b.created && Less(a.id, b.id))))
  }

  /** `best` is a candidate to which no other one is preferred. */
  ghost predicate IsBest(images: seq<Image>, best: Image) {
    best in images && Candidate(best) && forall x | x in images && Candidate(x) :: !Preferred(x, best)
  }

  /** What the scan returns: a best image, unless there is no candidate or the best ones have no identifier. */
  ghost predicate IsChoice(images: seq<Image>, r: Option<Image>) {
    if r.Some? then IsBest(images, r.value) && r.value.id != ""
    else (forall x | x in images :: !Candidate(x)) || (exists x :: IsBest(images, x) && x.id == "")
  }

  /** The `ubuntu` branch of `selectImage`, on any inventory in order. */
  method SelectUbuntu(images: seq<Image>) returns (r: Option<Image>)
    requires Ordered(images)
    ensures IsChoice(images, r)
    ensures r.Some? ==> r.value.system == "Canonical Ubuntu" && UbuntuVersion(r.value.version).Some?
  {
    hide UbuntuVersion, Less;
    var selected := Image("", "", "", "", "", 0);
    var best := Version(-1, -1);
    ghost var at := -1;
    for i := 0 to |images|
      invariant -1 <= at < i
      invariant at == -1 ==> selected.id == "" && best == Version(-1, -1)
      invariant at == -1 ==> forall j | 0 <= j < i :: !Candidate(images[j])
      invariant at != -1 ==> selected == images[at] && Candidate(selected) && best == VersionOf(selected)
      invariant at != -1 ==> forall j | 0 <= j < i && Candidate(images[j]) :: !Preferred(images[j], selected)
    {
      var image := images[i];
      var version := UbuntuVersion(image.version);
      if image.system == "Canonical Ubuntu" && version.Some? && Higher(version.value, best) {
        selected, best := image, version.value;
        at := i;
        BeforeIsAsymmetric(image, image);
      }
    }
    if at != -1 {
      assert IsBest(images, selected);
    }
    r := if selected.id != "" then Some(selected) else None;
  }

  /** Two best images of the same set agree in version, age and identifier. */
  lemma BestIsUnique(a: seq<Image>, b: seq<Image>, x: Image, y: Image)
    requires forall z :: z in a <==> z in b
    requires IsBest(a, x) && IsBest(b, y)
    ensures VersionOf(x) == VersionOf(y) && x.created == y.created && x.id == y.id
  {
    LessIsTotal(x.id, y.id);
  }

  predicate Identified(images: seq<Image>) {
    forall x, y | x in images && y in images :: x.id == y.id ==> x == y
  }

  /** The choice depends only on which images there are, not on their order or on how they were split into pages:
      whether there is one, and its identifier; and if identifiers identify images, the image. */
  lemma ChoiceDependsOnlyOnSet(a: seq<Image>, b: seq<Image>, x: Option<Image>, y: Option<Image>)
    requires forall z :: z in a <==> z in b
    requires IsChoice(a, x) && IsChoice(b, y)
    ensures x.Some? <==> y.Some?
    ensures x.Some? ==> x.value.id == y.value.id && VersionOf(x.value) == VersionOf(y.value)
    ensures Identified(a) ==> x == y
  {
    if x.Some? {
      SameChoice(a, b, x.value, y);
    } else if y.Some? {
      SameChoice(b, a, y.value, x);
    }
  }

  lemma SameChoice(a: seq<Image>, b: seq<Image>, x: Image, y: Option<Image>)
    requires forall z :: z in a <==> z in b
    requires IsChoice(a, Some(x)) && IsChoice(b, y)
    ensures y.Some? && x.id == y.value.id && VersionOf(x) == VersionOf(y.value)
  {
    assert x in b;
    if y.Some? {
      BestIsUnique(a, b, x, y.value);
    } else {
      var z :| IsBest(b, z) && z.id == "";
      BestIsUnique(a, b, x, z);
      assert false;
    }
  }

  /** `ListImages` and then the `ubuntu` branch of `selectImage`: the choice from the complete listing, and nothing
      without one. */
  method ChooseUbuntu(fetch: string -> Fetch<Image>, cancelAt: nat) returns (r: Option<Image>, listed: Listing<Image>)
    ensures listed.Complete? <==> exists n: nat :: n < cancelAt && Ends(fetch, n)
    ensures if listed.Complete? then IsChoice(listed.items, r) else r.None?
  {
    var fetched;
    listed, fetched := All(fetch, cancelAt);
    r := None;
    if listed.Complete? {
      SortOrdered(listed.items);
      r := SelectUbuntu(Sort(listed.items));
      SameImages(Sort(listed.items), listed.items, r);
    }
  }

  lemma SameImages(a: seq<Image>, b: seq<Image>, r: Option<Image>)
    requires (forall z :: z in a <==> z in b) && IsChoice(a, r)
    ensures IsChoice(b, r)
  {
    if r.None? && !(forall x | x in a :: !Candidate(x)) {
      var x :| IsBest(a, x) && x.id == "";
      assert IsBest(b, x);
    }
  }
}
