/** The server catalogue derived from a profile's proxy outbounds. */
module Catalog {
  import opened Profile
  import opened Text
  import opened Wrappers
  import Tags

  const PROXY_TYPES: set<string> := {
    "vless", "vmess", "trojan", "hysteria2", "hysteria", "shadowsocks", "shadowsocksr", "tuic", "anytls", "wireguard"
  }

  datatype ServerInfo = ServerInfo(name: string, tag: string, country: string, host: string, port: nat)

  // ------------------------------------------------------------------- slugs

  /**
   str.lower, as far as a slug or a country can tell: the Kelvin sign and the dotted capital
   I are the only other characters whose lower case holds a Latin or Russian letter.
   */
  function Lower(c: char): string {
    if 'A' <= c <= 'Z' || 'А' <= c <= 'Я' then [(c as int + 32) as char]
    else if c == 'Ё' then "ё"
    else if c == '\U{212A}' then "k"
    else if c == '\U{0130}' then "i\U{0307}"
    else [c]
  }

  function LowerAll(s: string): string {
    if s == [] then [] else LowerAll(s[..|s| - 1]) + Lower(s[|s| - 1])
  }

  function Transliterated(c: char): Option<string> {
    match c
    case 'а' => Some("a") case 'б' => Some("b") case 'в' => Some("v") case 'г' => Some("g") case 'д' => Some("d")
    case 'е' => Some("e") case 'ё' => Some("e") case 'ж' => Some("zh") case 'з' => Some("z") case 'и' => Some("i")
    case 'й' => Some("y") case 'к' => Some("k") case 'л' => Some("l") case 'м' => Some("m") case 'н' => Some("n")
    case 'о' => Some("o") case 'п' => Some("p") case 'р' => Some("r") case 'с' => Some("s") case 'т' => Some("t")
    case 'у' => Some("u") case 'ф' => Some("f") case 'х' => Some("h") case 'ц' => Some("ts") case 'ч' => Some("ch")
    case 'ш' => Some("sh") case 'щ' => Some("shch") case 'ъ' => Some("") case 'ы' => Some("y") case 'ь' => Some("")
    case 'э' => Some("e") case 'ю' => Some("yu") case 'я' => Some("ya")
    case _ => None
  }

  predicate IsSlugChar(c: char) {
    'a' <= c <= 'z' || '0' <= c <= '9'
  }

  /** What one character of the lower-cased text adds to the slug. */
  function SlugPart(c: char): (r: string)
    ensures !IsCapital(c) ==> forall x :: x in r ==> IsSlugChar(x)
  {
    match Transliterated(c)
    case Some(t) => t
    case None => if 'a' <= c <= 'z' || 'A' <= c <= 'Z' || '0' <= c <= '9' then [c] else ""
  }

  function SlugOf(s: string): string {
    if s == [] then [] else SlugOf(s[..|s| - 1]) + SlugPart(s[|s| - 1])
  }

  /** `_slugify`: the loop over the lower-cased characters. */
  method Slugify(text: string) returns (slug: string)
    ensures slug == SlugOf(LowerAll(text))
  {
    var lowered := LowerAll(text);
    slug := "";
    for i := 0 to |lowered|
      invariant slug == SlugOf(lowered[..i])
    {
      assert lowered[..i + 1][..i] == lowered[..i];
      match Transliterated(lowered[i]) {
        case Some(t) => slug := slug + t;
        case None =>
          var c := lowered[i];
          if 'a' <= c <= 'z' || 'A' <= c <= 'Z' || '0' <= c <= '9' {
            slug := slug + [c];
          }
      }
    }
    assert lowered[..|lowered|] == lowered;
  }

  predicate IsCapital(c: char) {
    'A' <= c <= 'Z'
  }

  lemma {:induction false} LowerHasNoCapital(text: string)
    ensures forall x :: x in LowerAll(text) ==> !IsCapital(x)
  {
    if text != [] {
      LowerHasNoCapital(text[..|text| - 1]);
    }
  }

  lemma {:induction false} SlugWithoutCapitals(s: string)
    requires forall x :: x in s ==> !IsCapital(x)
    ensures forall c :: c in SlugOf(s) ==> IsSlugChar(c)
  {
    if s != [] {
      SlugWithoutCapitals(s[..|s| - 1]);
      assert s[|s| - 1] in s;
    }
  }

  /** A slug is made of lower-case letters and digits: in particular it has no underscore. */
  lemma SlugChars(text: string)
    ensures forall c :: c in SlugOf(LowerAll(text)) ==> IsSlugChar(c)
  {
    LowerHasNoCapital(text);
    SlugWithoutCapitals(LowerAll(text));
  }

  // ------------------------------------------------------- base names and countries

  /** text.split(separator, 1)[0] */
  function Before(text: string, separator: string): string {
    if text == [] || separator <= text then [] else [text[0]] + Before(text[1..], separator)
  }

  /** text.rsplit(separator, 1)[-1] */
  function AfterLast(text: string, separator: string): string
    decreases |text|
  {
    if text != [] && Contains(text[1..], separator) then AfterLast(text[1..], separator)
    else if separator <= text then text[|separator|..]
    else text
  }

  function BaseName(tag: string): string {
    var norm := Tags.NormalizeTag(tag);
    var stripped := Strip(Before(norm, " - "));
    var lead := if stripped != "" then stripped else norm;
    var parts := Tags.Words(lead);
    var slug := SlugOf(LowerAll(if parts != [] then parts[0] else lead));
    if slug != "" then slug
    else
      var whole := SlugOf(LowerAll(norm));
      if whole != "" then whole else "server"
  }

  /** The letters of the regional indicators in a tag, in order. */
  function FlagLetters(tag: string): string {
    if tag == [] then []
    else
      var n := tag[0] as int;
      (if 0x1F1E6 <= n <= 0x1F1FF then [(n - 0x1F1E6 + 97) as char] else []) + FlagLetters(tag[1..])
  }

  function CountryNamed(name: string): Option<string> {
    match name
    case "германия" => Some("de") case "нидерланды" => Some("nl") case "эстония" => Some("ee")
    case "финляндия" => Some("fi") case "сша" => Some("us") case "япония" => Some("jp")
    case "турция" => Some("tr") case "швейцария" => Some("ch") case "польша" => Some("pl")
    case "россия" => Some("ru") case "латвия" => Some("lv") case "казахстан" => Some("kz")
    case "литва" => Some("lt") case "швеция" => Some("se") case "норвегия" => Some("no")
    case "дания" => Some("dk") case "великобритания" => Some("gb") case "англия" => Some("gb")
    case "франция" => Some("fr") case "испания" => Some("es") case "италия" => Some("it")
    case "австрия" => Some("at") case "бельгия" => Some("be") case "чехия" => Some("cz")
    case "румыния" => Some("ro") case "болгария" => Some("bg") case "украина" => Some("ua")
    case "молдова" => Some("md") case "сербия" => Some("rs") case "венгрия" => Some("hu")
    case "канада" => Some("ca") case "бразилия" => Some("br") case "индия" => Some("in")
    case "сингапур" => Some("sg") case "гонконг" => Some("hk") case "корея" => Some("kr")
    case "австралия" => Some("au") case "ирландия" => Some("ie") case "португалия" => Some("pt")
    case "греция" => Some("gr")
    case _ => None
  }

  /** The first two regional indicators, wherever they stand, else the name after the last dash. */
  function Country(tag: string): string {
    var letters := FlagLetters(tag);
    if |letters| >= 2 then letters[..2]
    else
      var norm := Tags.NormalizeTag(tag);
      if !Contains(norm, " - ") then ""
      else OrElse(CountryNamed(LowerAll(Strip(AfterLast(norm, " - ")))), "")
  }

  // -------------------------------------------------------------- the catalogue

  datatype Record = Record(base: string, tag: string, country: string, host: string, port: nat)

  predicate IsProxy(o: Outbound) {
    o.kind.Some? && o.kind.value in PROXY_TYPES && o.tag.Some? && o.tag.value != ""
  }

  function RecordOf(o: Outbound): Record
    requires IsProxy(o)
  {
    Record(BaseName(o.tag.value), o.tag.value, Country(o.tag.value), OrElse(o.server, "unknown"), OrElse(o.port, 443))
  }

  function Records(outbounds: seq<Outbound>): seq<Record> {
    if outbounds == [] then []
    else
      var o := outbounds[|outbounds| - 1];
      Records(outbounds[..|outbounds| - 1]) + if IsProxy(o) then [RecordOf(o)] else []
  }

  function Bases(records: seq<Record>): seq<string> {
    seq(|records|, i requires 0 <= i < |records| => records[i].base)
  }

  /** The base names used more than once. */
  function Duplicated(bases: seq<string>): set<string> {
    set b | b in bases && multiset(bases)[b] > 1
  }

  function Named(r: Record, duplicated: set<string>): ServerInfo {
    ServerInfo(if r.base in duplicated && r.country != "" then r.base + "_" + r.country else r.base,
               r.tag, r.country, r.host, r.port)
  }

  function Entries(records: seq<Record>): (r: seq<ServerInfo>)
    ensures |r| == |records|
  {
    seq(|records|, i requires 0 <= i < |records| => Named(records[i], Duplicated(Bases(records))))
  }

  /** Comparison of strings by code points. */
  predicate Leq(a: string, b: string) {
    a == [] || (b != [] && (a[0] < b[0] || (a[0] == b[0] && Leq(a[1..], b[1..]))))
  }

  function Place(sorted: seq<ServerInfo>, s: ServerInfo): seq<ServerInfo> {
    if sorted == [] || Leq(sorted[|sorted| - 1].name, s.name) then sorted + [s]
    else Place(sorted[..|sorted| - 1], s) + [sorted[|sorted| - 1]]
  }

  /** sorted(servers, key=name): entries of equal names keep their order. */
  function SortByName(servers: seq<ServerInfo>): seq<ServerInfo> {
    if servers == [] then [] else Place(SortByName(servers[..|servers| - 1]), servers[|servers| - 1])
  }

  function Catalogue(outbounds: seq<Outbound>): seq<ServerInfo> {
    SortByName(Entries(Records(outbounds)))
  }

  method CollectRecords(outbounds: seq<Outbound>) returns (records: seq<Record>)
    ensures records == Records(outbounds)
  {
    records := [];
    for i := 0 to |outbounds|
      invariant records == Records(outbounds[..i])
    {
      assert outbounds[..i + 1][..i] == outbounds[..i];
      var o := outbounds[i];
      if IsProxy(o) {
        records := records + [RecordOf(o)];
      }
    }
    assert outbounds[..|outbounds|] == outbounds;
  }

  method BuildCatalog(outbounds: seq<Outbound>) returns (servers: seq<ServerInfo>)
    ensures servers == Catalogue(outbounds)
  {
    var records := CollectRecords(outbounds);
    var duplicated := Duplicated(Bases(records));
    var named := [];
    for i := 0 to |records|
      invariant |named| == i
      invariant forall k :: 0 <= k < i ==> named[k] == Named(records[k], duplicated)
    {
      named := named + [Named(records[i], duplicated)];
    }
    assert named == Entries(records);
    servers := SortByName(named);
  }

  // ----------------------------------------------------------------- distinct names

  lemma BaseHasNoUnderscore(tag: string)
    ensures '_' !in BaseName(tag)
  {
    var norm := Tags.NormalizeTag(tag);
    var stripped := Strip(Before(norm, " - "));
    var lead := if stripped != "" then stripped else norm;
    var parts := Tags.Words(lead);
    var first := if parts != [] then parts[0] else lead;
    SlugHasNoUnderscore(first);
    SlugHasNoUnderscore(norm);
  }

  lemma SlugHasNoUnderscore(text: string)
    ensures '_' !in SlugOf(LowerAll(text))
  {
    SlugChars(text);
  }

  lemma {:induction false} RecordBases(outbounds: seq<Outbound>)
    ensures forall i :: 0 <= i < |Records(outbounds)| ==> '_' !in Records(outbounds)[i].base
  {
    if outbounds != [] {
      RecordBases(outbounds[..|outbounds| - 1]);
      var o := outbounds[|outbounds| - 1];
      if IsProxy(o) {
        BaseHasNoUnderscore(o.tag.value);
      }
    }
  }

  /** An underscore splits a suffixed name in only one way. */
  lemma UnderscoreSplits(a: string, x: string, b: string, y: string)
    requires '_' !in a && '_' !in b && a + "_" + x == b + "_" + y
    ensures a == b && x == y
  {
    var s := a + "_" + x;
    assert s[|a|] == '_' && s[|b|] == '_';
    assert forall i :: 0 <= i < |a| ==> s[i] == a[i] && a[i] in a;
    assert forall i :: 0 <= i < |b| ==> s[i] == b[i] && b[i] in b;
    assert a == s[..|a|] && b == s[..|b|];
    assert x == s[|a| + 1..] && y == s[|b| + 1..];
  }

  ghost predicate NamesDistinct(servers: seq<ServerInfo>) {
    forall i, j :: 0 <= i < j < |servers| ==> servers[i].name != servers[j].name
  }

  ghost predicate PairsDistinct(records: seq<Record>) {
    forall i, j :: 0 <= i < j < |records| ==>
      (records[i].base, records[i].country) != (records[j].base, records[j].country)
  }

  lemma RepeatedIsDuplicated(records: seq<Record>, i: nat, j: nat)
    requires i < j < |records| && records[i].base == records[j].base
    ensures records[i].base in Duplicated(Bases(records))
  {
    var bases := Bases(records);
    var b := records[i].base;
    assert bases == bases[..i] + [bases[i]] + bases[i + 1..j] + [bases[j]] + bases[j + 1..];
    assert multiset(bases) == multiset(bases[..i]) + multiset([bases[i]]) + multiset(bases[i + 1..j])
                            + multiset([bases[j]]) + multiset(bases[j + 1..]);
    assert bases[i] in bases;
  }

  lemma SameNameIff(records: seq<Record>, i: nat, j: nat)
    requires i < j < |records| && '_' !in records[i].base && '_' !in records[j].base
    ensures Entries(records)[i].name == Entries(records)[j].name
       <==> (records[i].base, records[i].country) == (records[j].base, records[j].country)
  {
    var duplicated := Duplicated(Bases(records));
    var r, q := records[i], records[j];
    var suffixed, suffixedToo := r.base in duplicated && r.country != "", q.base in duplicated && q.country != "";
    if r.base == q.base {
      RepeatedIsDuplicated(records, i, j);
    }
    assert (r.base + "_" + r.country)[|r.base|] == '_' && (q.base + "_" + q.country)[|q.base|] == '_';
    if Entries(records)[i].name == Entries(records)[j].name && suffixed && suffixedToo {
      UnderscoreSplits(r.base, r.country, q.base, q.country);
    }
  }

  ghost predicate HasName(servers: seq<ServerInfo>, name: string) {
    exists i :: 0 <= i < |servers| && servers[i].name == name
  }

  lemma {:induction false} PlaceNames(sorted: seq<ServerInfo>, s: ServerInfo)
    ensures |Place(sorted, s)| == |sorted| + 1
    ensures multiset(Place(sorted, s)) == multiset(sorted) + multiset{s}
    ensures forall n :: HasName(Place(sorted, s), n) <==> HasName(sorted, n) || s.name == n
    ensures NamesDistinct(Place(sorted, s)) <==> NamesDistinct(sorted) && !HasName(sorted, s.name)
  {
    var placed := Place(sorted, s);
    if sorted == [] || Leq(sorted[|sorted| - 1].name, s.name) {
      AppendNames(sorted, s);
    } else {
      var front, last := sorted[..|sorted| - 1], sorted[|sorted| - 1];
      PlaceNames(front, s);
      AppendNames(Place(front, s), last);
      AppendNames(front, last);
      assert sorted == front + [last];
    }
  }

  lemma AppendNames(servers: seq<ServerInfo>, s: ServerInfo)
    ensures forall n :: HasName(servers + [s], n) <==> HasName(servers, n) || s.name == n
    ensures NamesDistinct(servers + [s]) <==> NamesDistinct(servers) && !HasName(servers, s.name)
  {
    var all := servers + [s];
    forall n ensures HasName(all, n) <==> HasName(servers, n) || s.name == n {
      if s.name == n {
        assert all[|servers|].name == n;
      }
      if HasName(servers, n) {
        var i :| 0 <= i < |servers| && servers[i].name == n;
        assert all[i].name == n;
      }
    }
    if NamesDistinct(all) {
      forall i, j | 0 <= i < j < |servers| ensures servers[i].name != servers[j].name {
        assert all[i].name != all[j].name;
      }
      forall i | 0 <= i < |servers| ensures servers[i].name != s.name {
        assert all[i].name != all[|servers|].name;
      }
    }
  }

  lemma {:induction false} SortNames(servers: seq<ServerInfo>)
    ensures multiset(SortByName(servers)) == multiset(servers)
    ensures forall n :: HasName(SortByName(servers), n) <==> HasName(servers, n)
    ensures NamesDistinct(SortByName(servers)) <==> NamesDistinct(servers)
  {
    if servers != [] {
      var front, last := servers[..|servers| - 1], servers[|servers| - 1];
      SortNames(front);
      PlaceNames(SortByName(front), last);
      AppendNames(front, last);
      assert servers == front + [last];
    }
  }

  /**
   The catalogue's names are pairwise distinct if and only if no two proxy outbounds share
   both their base name and their country.
   */
  lemma NamesDistinctIff(outbounds: seq<Outbound>)
    ensures NamesDistinct(Catalogue(outbounds)) <==> PairsDistinct(Records(outbounds))
  {
    var records := Records(outbounds);
    RecordBases(outbounds);
    SortNames(Entries(records));
    forall i, j | 0 <= i < j < |records|
      ensures Entries(records)[i].name == Entries(records)[j].name
         <==> (records[i].base, records[i].country) == (records[j].base, records[j].country)
    {
      SameNameIff(records, i, j);
    }
  }

  // --------------------------------------------------------------- who gets a suffix

  /** What `f` makes of the elements it does not drop. */
  function Picked<T, U>(xs: seq<T>, f: T -> Option<U>): seq<U> {
    if xs == [] then []
    else
      var front, last := Picked(xs[..|xs| - 1], f), f(xs[|xs| - 1]);
      if last.Some? then front + [last.value] else front
  }

  /** Where what `f` makes of element `i` stands. */
  function PlaceOf<T, U>(xs: seq<T>, f: T -> Option<U>, i: nat): nat
    requires i <= |xs|
  {
    |Picked(xs[..i], f)|
  }

  lemma {:induction false} PickedAt<T, U>(xs: seq<T>, f: T -> Option<U>, i: nat)
    requires i < |xs| && f(xs[i]).Some?
    ensures PlaceOf(xs, f, i) < |Picked(xs, f)| && Picked(xs, f)[PlaceOf(xs, f, i)] == f(xs[i]).value
  {
    var n := |xs| - 1;
    if i < n {
      assert xs[..n][..i] == xs[..i];
      PickedAt(xs[..n], f, i);
    }
  }

  lemma PlacesApart<T, U>(xs: seq<T>, f: T -> Option<U>, i: nat, j: nat)
    requires i < j < |xs| && f(xs[i]).Some?
    ensures PlaceOf(xs, f, i) < PlaceOf(xs, f, j)
  {
    PickedAt(xs[..j], f, i);
    assert xs[..j][..i] == xs[..i];
  }

  lemma {:induction false} PickedFrom<T, U>(xs: seq<T>, f: T -> Option<U>, k: nat) returns (i: nat)
    requires k < |Picked(xs, f)|
    ensures i < |xs| && f(xs[i]).Some? && PlaceOf(xs, f, i) == k
  {
    var n := |xs| - 1;
    if k < |Picked(xs[..n], f)| {
      i := PickedFrom(xs[..n], f, k);
      assert xs[..n][..i] == xs[..i];
    } else {
      i := n;
    }
  }

  function AsRecord(o: Outbound): Option<Record> {
    if IsProxy(o) then Some(RecordOf(o)) else None
  }

  lemma {:induction false} RecordsPicked(outbounds: seq<Outbound>)
    ensures Records(outbounds) == Picked(outbounds, AsRecord)
  {
    if outbounds != [] {
      RecordsPicked(outbounds[..|outbounds| - 1]);
    }
  }

  /** A base name is duplicated exactly when another record has it too. */
  lemma DuplicatedIff(records: seq<Record>, k: nat)
    requires k < |records|
    ensures records[k].base in Duplicated(Bases(records))
       <==> exists l :: 0 <= l < |records| && l != k && records[l].base == records[k].base
  {
    var bases, b := Bases(records), records[k].base;
    if l :| 0 <= l < |records| && l != k && records[l].base == b {
      RepeatedIsDuplicated(records, if k < l then k else l, if k < l then l else k);
    } else {
      assert bases == bases[..k] + [b] + bases[k + 1..];
      assert multiset(bases) == multiset(bases[..k]) + multiset{b} + multiset(bases[k + 1..]);
      assert forall l :: 0 <= l < |records| ==> bases[l] == records[l].base;
      assert b !in bases[..k] && b !in bases[k + 1..];
    }
  }

  lemma SharedIff(outbounds: seq<Outbound>, f: Outbound -> Option<Record>, i: nat)
    requires i < |outbounds| && f(outbounds[i]).Some?
    ensures (exists j :: 0 <= j < |outbounds| && j != i && f(outbounds[j]).Some?
                      && f(outbounds[j]).value.base == f(outbounds[i]).value.base)
       <==> f(outbounds[i]).value.base in Duplicated(Bases(Picked(outbounds, f)))
  {
    var records, k := Picked(outbounds, f), PlaceOf(outbounds, f, i);
    var base := f(outbounds[i]).value.base;
    PickedAt(outbounds, f, i);
    DuplicatedIff(records, k);
    if j :| 0 <= j < |outbounds| && j != i && f(outbounds[j]).Some? && f(outbounds[j]).value.base == base {
      PickedAt(outbounds, f, j);
      PlacesApart(outbounds, f, if i < j then i else j, if i < j then j else i);
    }
    if l :| 0 <= l < |records| && l != k && records[l].base == base {
      var j := PickedFrom(outbounds, f, l);
      PickedAt(outbounds, f, j);
    }
  }

  lemma NamedInCatalogue(outbounds: seq<Outbound>, f: Outbound -> Option<Record>, i: nat)
    requires i < |outbounds| && f(outbounds[i]).Some? && Records(outbounds) == Picked(outbounds, f)
    ensures var r := f(outbounds[i]).value;
      var shared := exists j :: 0 <= j < |outbounds| && j != i && f(outbounds[j]).Some? && f(outbounds[j]).value.base == r.base;
      ServerInfo(if shared && r.country != "" then r.base + "_" + r.country else r.base, r.tag, r.country, r.host, r.port)
        in Catalogue(outbounds)
  {
    var records, k := Picked(outbounds, f), PlaceOf(outbounds, f, i);
    PickedAt(outbounds, f, i);
    SharedIff(outbounds, f, i);
    assert Entries(records)[k] in Entries(records);
    SortNames(Entries(records));
    assert Entries(records)[k] in multiset(Catalogue(outbounds));
  }

  // ----------------------------------------------------------------------- order

  ghost predicate Ordered(servers: seq<ServerInfo>) {
    forall i, j :: 0 <= i < j < |servers| ==> Leq(servers[i].name, servers[j].name)
  }

  lemma {:induction false} LeqTotal(a: string, b: string)
    ensures Leq(a, b) || Leq(b, a)
  {
    if a != [] && b != [] && a[0] == b[0] {
      LeqTotal(a[1..], b[1..]);
    }
  }

  lemma {:induction false} LeqReflexive(a: string)
    ensures Leq(a, a)
  {
    if a != [] {
      LeqReflexive(a[1..]);
    }
  }

  lemma {:induction false} LeqTransitive(a: string, b: string, c: string)
    requires Leq(a, b) && Leq(b, c)
    ensures Leq(a, c)
  {
    if a != [] && a[0] == b[0] && b[0] == c[0] {
      LeqTransitive(a[1..], b[1..], c[1..]);
    }
  }

  lemma {:induction false} PlaceOrdered(sorted: seq<ServerInfo>, s: ServerInfo)
    requires Ordered(sorted)
    ensures Ordered(Place(sorted, s))
    ensures forall x :: x in Place(sorted, s) <==> x in sorted || x == s
  {
    if sorted != [] {
      var front, last := sorted[..|sorted| - 1], sorted[|sorted| - 1];
      assert sorted == front + [last];
      if Leq(last.name, s.name) {
        forall i | 0 <= i < |sorted| ensures Leq(sorted[i].name, s.name) {
          if i < |front| {
            LeqTransitive(sorted[i].name, last.name, s.name);
          }
        }
      } else {
        LeqTotal(last.name, s.name);
        PlaceOrdered(front, s);
        var placed := Place(front, s);
        forall i | 0 <= i < |placed| ensures Leq(placed[i].name, last.name) {
          assert placed[i] in placed;
          if placed[i] != s {
            var k :| 0 <= k < |front| && front[k] == placed[i];
            assert Leq(sorted[k].name, sorted[|front|].name);
          }
        }
      }
    }
  }

  lemma {:induction false} SortOrders(servers: seq<ServerInfo>)
    ensures Ordered(SortByName(servers))
  {
    if servers != [] {
      SortOrders(servers[..|servers| - 1]);
      PlaceOrdered(SortByName(servers[..|servers| - 1]), servers[|servers| - 1]);
    }
  }

  /** The entries of one name, in order. */
  function Called(servers: seq<ServerInfo>, name: string): seq<ServerInfo> {
    if servers == [] then []
    else Called(servers[..|servers| - 1], name) + if servers[|servers| - 1].name == name then [servers[|servers| - 1]] else []
  }

  lemma CalledLast(servers: seq<ServerInfo>, s: ServerInfo, name: string)
    ensures Called(servers + [s], name) == Called(servers, name) + if s.name == name then [s] else []
  {
    assert (servers + [s])[..|servers|] == servers;
  }

  lemma {:induction false} PlaceKeepsCalled(sorted: seq<ServerInfo>, s: ServerInfo, name: string)
    ensures Called(Place(sorted, s), name) == Called(sorted, name) + if s.name == name then [s] else []
  {
    if sorted == [] || Leq(sorted[|sorted| - 1].name, s.name) {
      CalledLast(sorted, s, name);
    } else {
      var front, last := sorted[..|sorted| - 1], sorted[|sorted| - 1];
      assert sorted == front + [last];
      LeqReflexive(s.name);
      assert last.name != s.name;
      PlaceKeepsCalled(front, s, name);
      CalledLast(Place(front, s), last, name);
      CalledLast(front, last, name);
    }
  }

  lemma {:induction false} SortKeepsCalled(servers: seq<ServerInfo>, name: string)
    ensures Called(SortByName(servers), name) == Called(servers, name)
  {
    if servers != [] {
      var front, last := servers[..|servers| - 1], servers[|servers| - 1];
      assert servers == front + [last];
      SortKeepsCalled(front, name);
      PlaceKeepsCalled(SortByName(front), last, name);
      CalledLast(front, last, name);
    }
  }

  /** Servers of one name stand in the catalogue in the order of the profile, so that a lookup finds the first. */
  lemma SameNameInOrder(outbounds: seq<Outbound>, name: string)
    ensures Called(Catalogue(outbounds), name) == Called(Entries(Records(outbounds)), name)
    ensures Lookup(Catalogue(outbounds), name)
         == var called := Called(Entries(Records(outbounds)), name); if called == [] then None else Some(called[0])
  {
    SortKeepsCalled(Entries(Records(outbounds)), name);
    LookupIsFirstCalled(Catalogue(outbounds), name);
  }

  lemma {:induction false} LookupIsFirstCalled(servers: seq<ServerInfo>, name: string)
    ensures Lookup(servers, name) == if Called(servers, name) == [] then None else Some(Called(servers, name)[0])
  {
    if servers != [] {
      CalledFirst(servers[0], servers[1..], name);
      assert servers == [servers[0]] + servers[1..];
      LookupIsFirstCalled(servers[1..], name);
    }
  }

  lemma {:induction false} CalledFirst(s: ServerInfo, rest: seq<ServerInfo>, name: string)
    ensures Called([s] + rest, name) == (if s.name == name then [s] else []) + Called(rest, name)
  {
    if rest == [] {
      assert [s] + rest == [] + [s];
      CalledLast([], s, name);
    } else {
      var front, last := rest[..|rest| - 1], rest[|rest| - 1];
      assert rest == front + [last] && [s] + rest == ([s] + front) + [last];
      CalledFirst(s, front, name);
      CalledLast([s] + front, last, name);
      CalledLast(front, last, name);
    }
  }

  /** The catalogue is the tagged proxy outbounds, each once, in the order of their names. */
  lemma CatalogueIsSortedPermutation(outbounds: seq<Outbound>)
    ensures Ordered(Catalogue(outbounds))
    ensures multiset(Catalogue(outbounds)) == multiset(Entries(Records(outbounds)))
  {
    SortOrders(Entries(Records(outbounds)));
    SortNames(Entries(Records(outbounds)));
  }

  lemma CatalogueSize(outbounds: seq<Outbound>)
    ensures |Catalogue(outbounds)| == |Records(outbounds)|
  {
    var entries := Entries(Records(outbounds));
    SortNames(entries);
    assert |multiset(SortByName(entries))| == |multiset(entries)|;
  }

  lemma FirstIsLeast(servers: seq<ServerInfo>)
    requires Ordered(servers) && servers != []
    ensures forall s :: s in servers ==> Leq(servers[0].name, s.name)
  {
    LeqReflexive(servers[0].name);
    forall s | s in servers ensures Leq(servers[0].name, s.name) {
      var i :| 0 <= i < |servers| && servers[i] == s;
    }
  }

  // ---------------------------------------------------------------------- lookup

  /** `get_server`: the first entry of that name. */
  function Lookup(servers: seq<ServerInfo>, name: string): (r: Option<ServerInfo>)
    ensures r.Some? ==> r.value in servers && r.value.name == name
    ensures r.None? ==> !HasName(servers, name)
  {
    if servers == [] then None
    else if servers[0].name == name then Some(servers[0])
    else
      NameFurther(servers, name);
      Lookup(servers[1..], name)
  }

  lemma NameFurther(servers: seq<ServerInfo>, name: string)
    requires servers != [] && servers[0].name != name
    ensures HasName(servers, name) ==> HasName(servers[1..], name)
  {
    if HasName(servers, name) {
      var i :| 0 <= i < |servers| && servers[i].name == name;
      assert servers[1..][i - 1].name == name;
    }
  }

  /**
   Looking up the name of any server gives back that server if and only if no two different
   servers bear one name.
   */
  lemma LookupReturnsIff(servers: seq<ServerInfo>)
    ensures (forall s :: s in servers ==> Lookup(servers, s.name) == Some(s))
       <==> (forall s, t :: s in servers && t in servers && s.name == t.name ==> s == t)
  {
    forall s | s in servers ensures HasName(servers, s.name) {
      var i :| 0 <= i < |servers| && servers[i] == s;
      assert servers[i].name == s.name;
    }
    if forall s :: s in servers ==> Lookup(servers, s.name) == Some(s) {
      forall s, t | s in servers && t in servers && s.name == t.name ensures s == t {
        assert Lookup(servers, s.name) == Some(s) && Lookup(servers, t.name) == Some(t);
      }
    }
  }

  lemma {:induction false} RecordsComeFrom(outbounds: seq<Outbound>, r: Record)
    requires r in Records(outbounds)
    ensures exists o :: o in outbounds && IsProxy(o) && r == RecordOf(o)
  {
    var front, o := outbounds[..|outbounds| - 1], outbounds[|outbounds| - 1];
    if r in Records(front) {
      RecordsComeFrom(front, r);
      var p :| p in front && IsProxy(p) && r == RecordOf(p);
      assert p in outbounds;
    } else {
      assert o in outbounds;
    }
  }

  /** Every server of the catalogue is backed by an outbound of its tag. */
  lemma ServersAreOutbounds(outbounds: seq<Outbound>, s: ServerInfo)
    requires s in Catalogue(outbounds)
    ensures exists o :: o in outbounds && IsProxy(o) && o.tag == Some(s.tag)
    ensures s.tag != ""
  {
    var records := Records(outbounds);
    SortNames(Entries(records));
    assert s in multiset(Catalogue(outbounds));
    assert s in Entries(records);
    var i :| 0 <= i < |records| && Entries(records)[i] == s;
    assert records[i] in records;
    RecordsComeFrom(outbounds, records[i]);
  }

  /** When no two servers share base name and country, `get_server(s.name)` is `s`. */
  lemma LookupUnderDistinctPairs(outbounds: seq<Outbound>, s: ServerInfo)
    requires PairsDistinct(Records(outbounds)) && s in Catalogue(outbounds)
    ensures Lookup(Catalogue(outbounds), s.name) == Some(s)
  {
    NamesDistinctIff(outbounds);
    LookupReturnsIff(Catalogue(outbounds));
  }
}
