/** What a tag's words and flags make of a server's name and country. */
module CatalogTexts {
  import opened Catalog
  import opened Profile
  import opened Text
  import opened Wrappers
  import Tags

  // ------------------------------------------------------------------ who is a server

  /** A tagged outbound of one of the types that carry traffic to a server. */
  predicate Serves(o: Outbound) {
    && o.kind in [Some("vless"), Some("vmess"), Some("trojan"), Some("hysteria2"), Some("hysteria"), Some("shadowsocks"),
                  Some("shadowsocksr"), Some("tuic"), Some("anytls"), Some("wireguard")]
    && o.tag.Some? && o.tag.value != ""
  }

  predicate CalledLike(o: Outbound, base: string) {
    Serves(o) && BaseName(o.tag.value) == base
  }

  lemma ServesIsProxy(o: Outbound)
    ensures Serves(o) <==> IsProxy(o)
  {
  }

  lemma CalledLikeIff(o: Outbound, base: string)
    ensures CalledLike(o, base) <==> AsRecord(o).Some? && AsRecord(o).value.base == base
  {
    ServesIsProxy(o);
  }

  /**
   Every such outbound is a server of the catalogue. It is called by its base name, followed
   by its country exactly when another one has that base name and the country is known.
   */
  lemma ServerIsNamed(outbounds: seq<Outbound>, i: nat)
    requires i < |outbounds| && Serves(outbounds[i])
    ensures var tag := outbounds[i].tag.value;
      var shared := exists j :: 0 <= j < |outbounds| && j != i && CalledLike(outbounds[j], BaseName(tag));
      ServerInfo(if shared && Country(tag) != "" then BaseName(tag) + "_" + Country(tag) else BaseName(tag),
                 tag, Country(tag), OrElse(outbounds[i].server, "unknown"), OrElse(outbounds[i].port, 443))
        in Catalogue(outbounds)
  {
    var base := BaseName(outbounds[i].tag.value);
    ServesIsProxy(outbounds[i]);
    RecordsPicked(outbounds);
    NamedInCatalogue(outbounds, AsRecord, i);
    forall j | 0 <= j < |outbounds|
      ensures CalledLike(outbounds[j], base) <==> AsRecord(outbounds[j]).Some? && AsRecord(outbounds[j]).value.base == base
    {
      CalledLikeIff(outbounds[j], base);
    }
    CalledLikeIff(outbounds[i], base);
  }

  /** And nothing else is a server. */
  lemma ServersServe(outbounds: seq<Outbound>, s: ServerInfo)
    requires s in Catalogue(outbounds)
    ensures exists o :: o in outbounds && Serves(o) && o.tag == Some(s.tag)
  {
    ServersAreOutbounds(outbounds, s);
    var o :| o in outbounds && IsProxy(o) && o.tag == Some(s.tag);
    ServesIsProxy(o);
  }

  // -------------------------------------------------------------------- the alphabet

  /** What `f` makes of the characters, one after the other. */
  function Mapped(s: string, f: char -> string): string {
    if s == [] then [] else Mapped(s[..|s| - 1], f) + f(s[|s| - 1])
  }

  lemma {:induction false} MappedJoined(a: string, b: string, f: char -> string)
    ensures Mapped(a + b, f) == Mapped(a, f) + Mapped(b, f)
  {
    if b == [] {
      assert a + b == a;
    } else {
      assert (a + b)[..|a + b| - 1] == a + b[..|b| - 1];
      MappedJoined(a, b[..|b| - 1], f);
    }
  }

  lemma MappedOne(c: char, f: char -> string)
    ensures Mapped([c], f) == f(c)
  {
    assert [c][..0] == [] && Mapped([], f) == [];
  }

  lemma FourMapped(s: string, f: char -> string)
    requires |s| == 4
    ensures Mapped(s, f) == f(s[0]) + f(s[1]) + f(s[2]) + f(s[3])
  {
    assert s == [s[0]] + [s[1]] + [s[2]] + [s[3]];
    MappedJoined([s[0]] + [s[1]] + [s[2]], [s[3]], f);
    MappedJoined([s[0]] + [s[1]], [s[2]], f);
    MappedJoined([s[0]], [s[1]], f);
    MappedOne(s[0], f);
    MappedOne(s[1], f);
    MappedOne(s[2], f);
    MappedOne(s[3], f);
  }

  lemma {:induction false} SlugIsMapped(s: string)
    ensures SlugOf(s) == Mapped(s, SlugPart)
  {
    if s != [] {
      SlugIsMapped(s[..|s| - 1]);
    }
  }

  lemma SlugJoined(a: string, b: string)
    ensures SlugOf(a + b) == SlugOf(a) + SlugOf(b)
  {
    SlugIsMapped(a + b);
    SlugIsMapped(a);
    SlugIsMapped(b);
    MappedJoined(a, b, SlugPart);
  }

  lemma Quarter(s: string)
    requires |s| == 4
    ensures SlugOf(s) == SlugPart(s[0]) + SlugPart(s[1]) + SlugPart(s[2]) + SlugPart(s[3])
  {
    SlugIsMapped(s);
    FourMapped(s, SlugPart);
  }

  lemma LettersToG()
    ensures SlugOf("абвг") == "abvg"
  {
    Quarter("абвг");
  }

  lemma LettersToZh()
    ensures SlugOf("деёж") == "deezh"
  {
    Quarter("деёж");
  }

  lemma LettersToK()
    ensures SlugOf("зийк") == "ziyk"
  {
    Quarter("зийк");
  }

  lemma LettersToO()
    ensures SlugOf("лмно") == "lmno"
  {
    Quarter("лмно");
  }

  lemma LettersToT()
    ensures SlugOf("прст") == "prst"
  {
    Quarter("прст");
  }

  lemma LettersToTs()
    ensures SlugOf("уфхц") == "ufhts"
  {
    Quarter("уфхц");
  }

  lemma LettersToHardSign()
    ensures SlugOf("чшщъ") == "chshshch"
  {
    Quarter("чшщъ");
  }

  lemma LettersToYu()
    ensures SlugOf("ыьэю") == "yeyu"
  {
    Quarter("ыьэю");
  }

  lemma LastLetter()
    ensures SlugOf("я") == "ya"
  {
    SlugIsMapped("я");
    MappedOne('я', SlugPart);
  }

  lemma FirstHalf()
    ensures SlugOf("абвг" + "деёж" + "зийк" + "лмно") == "abvg" + "deezh" + "ziyk" + "lmno"
  {
    LettersToG();
    LettersToZh();
    LettersToK();
    LettersToO();
    SlugJoined("абвг" + "деёж" + "зийк", "лмно");
    SlugJoined("абвг" + "деёж", "зийк");
    SlugJoined("абвг", "деёж");
  }

  lemma SecondHalf()
    ensures SlugOf("прст" + "уфхц" + "чшщъ" + "ыьэю" + "я") == "prst" + "ufhts" + "chshshch" + "yeyu" + "ya"
  {
    LettersToT();
    LettersToTs();
    LettersToHardSign();
    LettersToYu();
    LastLetter();
    SlugJoined("прст" + "уфхц" + "чшщъ" + "ыьэю", "я");
    SlugJoined("прст" + "уфхц" + "чшщъ", "ыьэю");
    SlugJoined("прст" + "уфхц", "чшщъ");
    SlugJoined("прст", "уфхц");
  }

  /** The slug of the whole Russian alphabet. */
  lemma AlphabetSlug()
    ensures SlugOf(("абвг" + "деёж" + "зийк" + "лмно") + ("прст" + "уфхц" + "чшщъ" + "ыьэю" + "я"))
         == ("abvg" + "deezh" + "ziyk" + "lmno") + ("prst" + "ufhts" + "chshshch" + "yeyu" + "ya")
  {
    FirstHalf();
    SecondHalf();
    SlugJoined("абвг" + "деёж" + "зийк" + "лмно", "прст" + "уфхц" + "чшщъ" + "ыьэю" + "я");
  }

  lemma PlainPart(c: char)
    requires 'a' <= c <= 'z' || '0' <= c <= '9'
    ensures SlugPart(c) == [c]
  {
  }

  /** Lower-case Latin letters and digits are their own slug. */
  lemma {:induction false} PlainSlug(s: string)
    requires forall c :: c in s ==> 'a' <= c <= 'z' || '0' <= c <= '9'
    ensures SlugOf(s) == s
  {
    if s != [] {
      var front, last := s[..|s| - 1], s[|s| - 1];
      assert s == front + [last] && last in s;
      assert forall c :: c in front ==> c in s;
      PlainPart(last);
      PlainSlug(front);
    }
  }

  // ------------------------------------------------------------------------- flags

  predicate IsIndicator(c: char) {
    0x1F1E6 <= c as int <= 0x1F1FF
  }

  lemma {:induction false} LettersJoined(a: string, b: string)
    ensures FlagLetters(a + b) == FlagLetters(a) + FlagLetters(b)
  {
    if a == [] {
      assert a + b == b;
    } else {
      assert (a + b)[1..] == a[1..] + b;
      LettersJoined(a[1..], b);
    }
  }

  lemma {:induction false} NoLetters(s: string)
    requires forall c :: c in s ==> !IsIndicator(c)
    ensures FlagLetters(s) == []
  {
    if s != [] {
      assert s[0] in s;
      NoLetters(s[1..]);
    }
  }

  lemma OneLetter(c: char)
    requires IsIndicator(c)
    ensures FlagLetters([c]) == [(c as int - 0x1F1E6 + 'a' as int) as char]
  {
    assert [c][1..] == [];
  }

  /** The first two regional indicators are the country, wherever they stand and whatever is around them. */
  lemma FlagIsCountry(before: string, a: char, between: string, b: char, after: string)
    requires IsIndicator(a) && IsIndicator(b)
    requires forall c :: c in before + between ==> !IsIndicator(c)
    ensures Country(before + [a] + between + [b] + after)
         == [(a as int - 0x1F1E6 + 'a' as int) as char, (b as int - 0x1F1E6 + 'a' as int) as char]
  {
    assert forall c :: c in before ==> c in before + between;
    assert forall c :: c in between ==> c in before + between;
    NoLetters(before);
    NoLetters(between);
    OneLetter(a);
    OneLetter(b);
    LettersJoined(before, [a]);
    LettersJoined(before + [a], between);
    LettersJoined(before + [a] + between, [b]);
    LettersJoined(before + [a] + between + [b], after);
  }

  /** A country code is two lower-case Latin letters, if it is known. */
  lemma CountryIsTwoLetters(tag: string)
    ensures Country(tag) == "" || (|Country(tag)| == 2 && forall c :: c in Country(tag) ==> 'a' <= c <= 'z')
  {
    LettersAreLower(tag);
    var letters := FlagLetters(tag);
    assert |letters| >= 2 ==> forall c :: c in letters[..2] ==> c in letters;
    if |letters| < 2 && Contains(Tags.NormalizeTag(tag), " - ") {
      CodesAreTwoLetters(LowerAll(Strip(AfterLast(Tags.NormalizeTag(tag), " - "))));
    }
  }

  lemma {:induction false} LettersAreLower(tag: string)
    ensures forall c :: c in FlagLetters(tag) ==> 'a' <= c <= 'z'
  {
    if tag != [] {
      LettersAreLower(tag[1..]);
    }
  }

  lemma CodesAreTwoLetters(name: string)
    ensures CountryNamed(name).Some? ==>
      |CountryNamed(name).value| == 2 && forall c :: c in CountryNamed(name).value ==> 'a' <= c <= 'z'
  {
  }

  // -------------------------------------------------------------------- base names

  lemma {:induction false} BeforeWord(w: string, rest: string, separator: string)
    requires separator != [] && IsSpace(separator[0]) && forall c :: c in w ==> !IsSpace(c)
    ensures Before(w + separator + rest, separator) == w
  {
    if w == [] {
      assert w + separator + rest == separator + rest;
    } else {
      var s := w + separator + rest;
      assert s[0] == w[0] && w[0] in w && !(separator <= s);
      assert s[1..] == w[1..] + separator + rest;
      BeforeWord(w[1..], rest, separator);
    }
  }

  lemma WordTrimmed(w: string)
    requires Tags.IsWord(w)
    ensures Strip(w) == w && Tags.Words(w) == [w]
  {
    assert w[0] in w && w[|w| - 1] in w;
    Tags.WordLengthOf(w, []);
    assert w + [] == w;
    assert w[|w|..] == [] && Tags.Words(w[|w|..]) == [];
  }

  /** "word - anything" is named after its first word if that has a slug, and after the whole text if only that has one. */
  lemma BaseIsFirstWord(tag: string, w: string, rest: string)
    requires Tags.IsWord(w) && tag == w + " - " + rest && Tags.NormalizeTag(tag) == tag
    ensures SlugOf(LowerAll(w)) != "" ==> BaseName(tag) == SlugOf(LowerAll(w))
    ensures SlugOf(LowerAll(w)) == "" && SlugOf(LowerAll(tag)) != "" ==> BaseName(tag) == SlugOf(LowerAll(tag))
  {
    BeforeWord(w, rest, " - ");
    WordTrimmed(w);
  }
  /** Neither the first word nor the whole text has a letter or digit to build on. */
  lemma BaseFallsBack(tag: string)
    requires forall c :: c in Tags.NormalizeTag(tag) ==> SlugOf(Lower(c)) == ""
    ensures BaseName(tag) == "server"
  {
    var norm := Tags.NormalizeTag(tag);
    var stripped := Strip(Before(norm, " - "));
    var lead := if stripped != "" then stripped else norm;
    var parts := Tags.Words(lead);
    BeforeChars(norm, " - ");
    var b, a := StripTold(Before(norm, " - "));
    assert forall c :: c in stripped ==> c in Before(norm, " - ");
    Tags.SplitGivesWords(lead);
    NoSlug(norm);
    NoSlug(if parts != [] then parts[0] else lead);
  }

  lemma {:induction false} BeforeChars(s: string, separator: string)
    ensures forall c :: c in Before(s, separator) ==> c in s
  {
    if s != [] && !(separator <= s) {
      BeforeChars(s[1..], separator);
    }
  }

  lemma {:induction false} NoSlug(s: string)
    requires forall c :: c in s ==> SlugOf(Lower(c)) == ""
    ensures SlugOf(LowerAll(s)) == ""
  {
    if s != [] {
      var front, last := s[..|s| - 1], s[|s| - 1];
      assert last in s && forall c :: c in front ==> c in s;
      NoSlug(front);
      SlugJoined(LowerAll(front), Lower(last));
    }
  }

  // ------------------------------------------------------------------ country names

  /** The names a country goes by. */
  function NamesOf(code: string): seq<string> {
    match code
    case "de" => ["германия"] case "nl" => ["нидерланды"] case "ee" => ["эстония"] case "fi" => ["финляндия"]
    case "us" => ["сша"] case "jp" => ["япония"] case "tr" => ["турция"] case "ch" => ["швейцария"]
    case "pl" => ["польша"] case "ru" => ["россия"] case "lv" => ["латвия"] case "kz" => ["казахстан"]
    case "lt" => ["литва"] case "se" => ["швеция"] case "no" => ["норвегия"] case "dk" => ["дания"]
    case "gb" => ["великобритания", "англия"] case "fr" => ["франция"] case "es" => ["испания"]
    case "it" => ["италия"] case "at" => ["австрия"] case "be" => ["бельгия"] case "cz" => ["чехия"]
    case "ro" => ["румыния"] case "bg" => ["болгария"] case "ua" => ["украина"] case "md" => ["молдова"]
    case "rs" => ["сербия"] case "hu" => ["венгрия"] case "ca" => ["канада"] case "br" => ["бразилия"]
    case "in" => ["индия"] case "sg" => ["сингапур"] case "hk" => ["гонконг"] case "kr" => ["корея"]
    case "au" => ["австралия"] case "ie" => ["ирландия"] case "pt" => ["португалия"] case "gr" => ["греция"]
    case _ => []
  }

  lemma NameIsListed(name: string)
    ensures CountryNamed(name).Some? ==> name in NamesOf(CountryNamed(name).value)
  {
  }

  lemma ListedIsName(code: string, k: nat)
    requires k < |NamesOf(code)|
    ensures CountryNamed(NamesOf(code)[k]) == Some(code)
  {
  }

  /** A name is read as a country exactly if it is one of the country's names. */
  lemma CountryNamedIff(name: string, code: string)
    ensures CountryNamed(name) == Some(code) <==> name in NamesOf(code)
  {
    NameIsListed(name);
    if name in NamesOf(code) {
      var k :| 0 <= k < |NamesOf(code)| && NamesOf(code)[k] == name;
      ListedIsName(code, k);
    }
  }

  lemma {:induction false} AfterLastOf(head: string, separator: string, tail: string)
    requires separator != [] && !Contains((separator + tail)[1..], separator)
    ensures AfterLast(head + separator + tail, separator) == tail
  {
    var s := head + separator + tail;
    if head == [] {
      assert s == separator + tail;
    } else {
      assert s[1..] == head[1..] + separator + tail;
      ContainedIn(head[1..], separator, tail);
      AfterLastOf(head[1..], separator, tail);
    }
  }

  lemma {:induction false} ContainedIn(head: string, part: string, tail: string)
    ensures Contains(head + part + tail, part)
  {
    var s := head + part + tail;
    if head == [] {
      assert s == part + tail;
    } else {
      assert s[1..] == head[1..] + part + tail;
      ContainedIn(head[1..], part, tail);
    }
  }

  /** Without a flag, the country is the one named after the last dash, whatever the case of its letters. */
  lemma CountryByName(tag: string, head: string, name: string, code: string)
    requires tag == head + " - " + name && Tags.NormalizeTag(tag) == tag
    requires |FlagLetters(tag)| < 2 && !Contains("- " + name, " - ") && Strip(name) == name
    requires LowerAll(name) in NamesOf(code)
    ensures Country(tag) == code
  {
    NamePart(tag, head, name);
    CountryFromName(tag, name);
    CountryNamedIff(LowerAll(name), code);
  }

  lemma NamePart(tag: string, head: string, name: string)
    requires tag == head + " - " + name && !Contains("- " + name, " - ")
    ensures Contains(tag, " - ") && AfterLast(tag, " - ") == name
  {
    assert (" - " + name)[1..] == "- " + name;
    AfterLastOf(head, " - ", name);
    ContainedIn(head, " - ", name);
  }

  lemma CountryFromName(tag: string, name: string)
    requires |FlagLetters(tag)| < 2 && Contains(Tags.NormalizeTag(tag), " - ")
    requires Strip(AfterLast(Tags.NormalizeTag(tag), " - ")) == name
    ensures Country(tag) == OrElse(CountryNamed(LowerAll(name)), "")
  {
  }
}
