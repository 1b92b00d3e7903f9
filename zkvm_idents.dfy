/**
 * The backend identifiers of `cfg_zkvm`: the exact-match parser, the alias
 * table behind its "did you mean" suggestions, the error text, and the cfg
 * predicate each backend expands to (crates/cfg-zkvm-macro/src/lib.rs).
 */
module ZkvmIdents {
  import opened Wrappers
  import opened Ascii
  import opened Syntax

  datatype ZkvmIdent = Risc0 | Sp1 | Pico | Ziren | Zisk

  /** The canonical spelling, the only string `FromStr` accepts for a backend. */
  function Name(id: ZkvmIdent): string {
    match id
    case Risc0 => "risc0"
    case Sp1 => "sp1"
    case Pico => "pico"
    case Ziren => "ziren"
    case Zisk => "zisk"
  }

  /** `ParseZkvmIdentError::UnknownZkvm { input, suggestion }` */
  datatype ParseZkvmIdentError = UnknownZkvm(input: string, suggestion: Option<string>)

  /** `ParseZkvmIdentError::unknown` */
  function Unknown(vm: string): ParseZkvmIdentError {
    UnknownZkvm(vm, None)
  }

  /** `ParseZkvmIdentError::suggestion` */
  function Suggestion(vm: string, suggestion: string): ParseZkvmIdentError {
    UnknownZkvm(vm, Some(suggestion))
  }

  /** The first five arms of `from_str`: exact, case-sensitive, untrimmed spelling. */
  function ExactMatch(s: string): (r: Option<ZkvmIdent>)
    ensures forall id :: r == Some(id) <==> s == Name(id)
  {
    if s == "risc0" then Some(Risc0)
    else if s == "sp1" then Some(Sp1)
    else if s == "pico" then Some(Pico)
    else if s == "ziren" then Some(Ziren)
    else if s == "zisk" then Some(Zisk)
    else None
  }

  /** The remaining arms of `from_str`: the suggestion for an already normalised spelling. */
  function SuggestionFor(lowercase: string): (r: Option<string>)
    ensures r.Some? ==> exists id :: r.value == Name(id)
  {
    if lowercase == "r0" || lowercase == "risc0" then
      assert "risc0" == Name(Risc0);
      Some("risc0")
    else if lowercase == "succinct" || lowercase == "sp1" then
      assert "sp1" == Name(Sp1);
      Some("sp1")
    else if lowercase == "brevis" || lowercase == "brevis-pico" || lowercase == "picovm"
         || lowercase == "pico-vm" || lowercase == "pico" then
      assert "pico" == Name(Pico);
      Some("pico")
    else if lowercase == "zkm" || lowercase == "ziren" then
      assert "ziren" == Name(Ziren);
      Some("ziren")
    else if lowercase == "zisk" then
      assert "zisk" == Name(Zisk);
      Some("zisk")
    else None
  }

  /**
   * `<ZkvmIdent as FromStr>::from_str`: the exact spelling wins first; only
   * then is the trimmed, lower-cased input looked up for a suggestion.
   */
  function FromStr(s: string): (r: Result<ZkvmIdent, ParseZkvmIdentError>)
    ensures forall id :: r == Ok(id) <==> s == Name(id)
    ensures r.Err? ==> r.error.input == s
    ensures r.Err? && r.error.suggestion.Some? ==>
              exists id :: r.error.suggestion.value == Name(id)
  {
    match ExactMatch(s)
    case Some(id) => Ok(id)
    case None =>
      match SuggestionFor(Normalize(s))
      case Some(v) => Err(Suggestion(s, v))
      case None => Err(Unknown(s))
  }

  /**
   * The alias table as data: the normalised spellings that earn a suggestion
   * of each backend. Every canonical name is among its own aliases, so a
   * mis-cased canonical name is still diagnosed helpfully.
   */
  function AliasesOf(id: ZkvmIdent): set<string> {
    match id
    case Risc0 => {"r0", "risc0"}
    case Sp1 => {"succinct", "sp1"}
    case Pico => {"brevis", "brevis-pico", "picovm", "pico-vm", "pico"}
    case Ziren => {"zkm", "ziren"}
    case Zisk => {"zisk"}
  }

  /** `format_suggestion` */
  function FormatSuggestion(suggestion: Option<string>): string {
    match suggestion
    case Some(v) => " - maybe you wanted to use " + Quoted(v) + "?"
    case None => ValidOptions
  }

  /** The `Display` text of the error, from its `#[error(...)]` format. */
  function ErrorMessage(e: ParseZkvmIdentError): string {
    "unknown zkvm \"" + e.input + "\"" + FormatSuggestion(e.suggestion)
  }

  /** The reserved discriminator key of the full form `zkvm = "..."`. */
  const ZkvmKey: string := "zkvm"

  /** The auxiliary flag that tells pico from risc0, which share a vendor. */
  const PicoFlag: string := "zkvm_pico"

  /** `ZkvmIdent::cfg_attr`: the cfg predicate that selects one backend. */
  function CfgAttr(id: ZkvmIdent): Expr {
    match id
    case Risc0 =>
      Apply("all", [KeyValue("target_os", "zkvm"), KeyValue("target_vendor", "risc0"), Apply("not", [Ident(PicoFlag)])])
    case Sp1 => Apply("all", [KeyValue("target_os", "zkvm"), KeyValue("target_vendor", "succinct")])
    case Pico => Apply("all", [KeyValue("target_os", "zkvm"), KeyValue("target_vendor", "risc0"), Ident(PicoFlag)])
    case Ziren => Apply("all", [KeyValue("target_os", "zkvm"), KeyValue("target_vendor", "zkm")])
    case Zisk => Apply("all", [KeyValue("target_os", "zkvm"), KeyValue("target_vendor", "zisk")])
  }

  /** A name between backticks, as the messages quote it. */
  function Quoted(name: string): string {
    "`" + name + "`"
  }

  /**
   * The text of the no-suggestion case of `format_suggestion`, spelt out
   * piece by piece: " - valid options are `risc0`, `sp1`, `pico`, `ziren` and `zisk`."
   */
  const ValidOptions: string :=
    " - valid options are " + Quoted(Name(Risc0)) + ", " + Quoted(Name(Sp1)) + ", " + Quoted(Name(Pico))
    + ", " + Quoted(Name(Ziren)) + " and " + Quoted(Name(Zisk)) + "."

  /** `needle` occurs in `hay` starting at index `at`. */
  predicate OccursAt(hay: string, needle: string, at: nat) {
    at + |needle| <= |hay| && hay[at..at + |needle|] == needle
  }

  // ---------------------------------------------------------------------
  // Properties of the parser and of its diagnostics
  // ---------------------------------------------------------------------

  /** Canonical spellings are exactly the five names, each naming its own backend. */
  lemma AcceptsExactlyCanonicalNames(s: string)
    ensures FromStr(s).Ok? <==> s in {"risc0", "sp1", "pico", "ziren", "zisk"}
    ensures forall id :: FromStr(Name(id)) == Ok(id)
  {
    if s in {"risc0", "sp1", "pico", "ziren", "zisk"} {
      assert s == Name(Risc0) || s == Name(Sp1) || s == Name(Pico) || s == Name(Ziren) || s == Name(Zisk);
    }
  }

  /** The suggestion arms agree with the alias table, in both directions. */
  lemma SuggestionForMatchesAliases(lowercase: string)
    ensures forall id :: SuggestionFor(lowercase) == Some(Name(id)) <==> lowercase in AliasesOf(id)
    ensures SuggestionFor(lowercase).None? <==> forall id :: lowercase !in AliasesOf(id)
  {
  }

  /**
   * On failure the error keeps the raw input, and suggests backend `id`
   * exactly when the normalised input is one of `id`'s aliases.
   */
  lemma SuggestionFollowsAliasTable(s: string, id: ZkvmIdent)
    requires FromStr(s).Err?
    ensures FromStr(s).error.input == s
    ensures FromStr(s).error.suggestion == Some(Name(id)) <==> Normalize(s) in AliasesOf(id)
    ensures FromStr(s).error.suggestion.None? <==> forall b :: Normalize(s) !in AliasesOf(b)
  {
    SuggestionForMatchesAliases(Normalize(s));
  }

  /** Two failing inputs with the same normal form get the same suggestion. */
  lemma SuggestionDependsOnlyOnNormalForm(s: string, t: string)
    requires FromStr(s).Err? && FromStr(t).Err?
    requires Normalize(s) == Normalize(t)
    ensures FromStr(s).error.suggestion == FromStr(t).error.suggestion
  {
  }

  /** Whatever is suggested is itself accepted by `FromStr`. */
  lemma SuggestionIsAccepted(s: string)
    requires FromStr(s).Err? && FromStr(s).error.suggestion.Some?
    ensures FromStr(FromStr(s).error.suggestion.value).Ok?
  {
    var id :| FromStr(s).error.suggestion.value == Name(id);
  }

  /** Canonical names are lower-case and unpadded, so they are their own normal form. */
  lemma CanonicalNamesAreNormal(id: ZkvmIdent)
    ensures Normalize(Name(id)) == Name(id)
  {
    NormalizeFixed(Name(id));
  }

  /**
   * A wrong-case or padded spelling of a canonical name is refused, but the
   * error names the canonical spelling.
   */
  lemma CaseVariantSuggestsCanonical(s: string, id: ZkvmIdent)
    requires s != Name(id) && Normalize(s) == Name(id)
    ensures FromStr(s) == Err(UnknownZkvm(s, Some(Name(id))))
  {
    if FromStr(s).Ok? {
      CanonicalNamesAreNormal(FromStr(s).value);
      assert false;
    }
    SuggestionFollowsAliasTable(s, id);
    assert Name(id) in AliasesOf(id);
  }

  lemma AliasesAreNotCanonical(s: string)
    requires s in {"r0", "succinct", "zkm", "brevis", "brevis-pico", "picovm", "pico-vm"}
    ensures ExactMatch(s).None?
  {
  }

  lemma ShortAliasIsNormal(s: string)
    requires s in {"r0", "succinct", "zkm"}
    ensures Normalize(s) == s
  {
    NormalizeFixed(s);
  }

  lemma PicoAliasIsNormal(s: string)
    requires s in {"brevis", "brevis-pico", "picovm", "pico-vm"}
    ensures Normalize(s) == s
  {
    NormalizeFixed(s);
  }

  /** A spelling listed in the alias table, typed as listed, is refused with its backend suggested. */
  lemma ListedAliasSuggests(s: string, id: ZkvmIdent)
    requires ExactMatch(s).None? && Normalize(s) == s && s in AliasesOf(id)
    ensures FromStr(s) == Err(UnknownZkvm(s, Some(Name(id))))
  {
    SuggestionFollowsAliasTable(s, id);
  }

  /** `zkvm = "r0"`, `"succinct"` and `"zkm"` in the suggestion compile-fail case. */
  lemma ShortAliasExamples()
    ensures FromStr("r0") == Err(UnknownZkvm("r0", Some("risc0")))
    ensures FromStr("succinct") == Err(UnknownZkvm("succinct", Some("sp1")))
    ensures FromStr("zkm") == Err(UnknownZkvm("zkm", Some("ziren")))
  {
    ShortAliasIsNormal("r0");
    AliasesAreNotCanonical("r0");
    ListedAliasSuggests("r0", Risc0);
    ShortAliasIsNormal("succinct");
    AliasesAreNotCanonical("succinct");
    ListedAliasSuggests("succinct", Sp1);
    ShortAliasIsNormal("zkm");
    AliasesAreNotCanonical("zkm");
    ListedAliasSuggests("zkm", Ziren);
  }

  /** `zkvm = "brevis"`, `"brevis-pico"`, `"picovm"` and `"pico-vm"` in the same case. */
  lemma PicoAliasExamples()
    ensures FromStr("brevis") == Err(UnknownZkvm("brevis", Some("pico")))
    ensures FromStr("brevis-pico") == Err(UnknownZkvm("brevis-pico", Some("pico")))
    ensures FromStr("picovm") == Err(UnknownZkvm("picovm", Some("pico")))
    ensures FromStr("pico-vm") == Err(UnknownZkvm("pico-vm", Some("pico")))
  {
    PicoAliasIsNormal("brevis");
    AliasesAreNotCanonical("brevis");
    ListedAliasSuggests("brevis", Pico);
    PicoAliasIsNormal("brevis-pico");
    AliasesAreNotCanonical("brevis-pico");
    ListedAliasSuggests("brevis-pico", Pico);
    PicoAliasIsNormal("picovm");
    AliasesAreNotCanonical("picovm");
    ListedAliasSuggests("picovm", Pico);
    PicoAliasIsNormal("pico-vm");
    AliasesAreNotCanonical("pico-vm");
    ListedAliasSuggests("pico-vm", Pico);
  }

  /** A spelling whose normal form is in no alias list is refused without a suggestion. */
  lemma UnlistedGetsNoSuggestion(s: string)
    requires ExactMatch(s).None? && forall id :: Normalize(s) !in AliasesOf(id)
    ensures FromStr(s) == Err(UnknownZkvm(s, None))
    ensures ErrorMessage(FromStr(s).error) == "unknown zkvm \"" + s + "\"" + ValidOptions
  {
    SuggestionFollowsAliasTable(s, Risc0);
  }

  /** "dummy" is lower-case, unpadded and in no alias list. */
  lemma DummyIsUnlisted(s: string)
    requires s == "dummy"
    ensures ExactMatch(s).None? && forall id :: Normalize(s) !in AliasesOf(id)
  {
    NormalizeFixed(s);
  }

  /** `zkvm = "dummy"` in the invalid-identifier compile-fail case: no suggestion, so all options are listed. */
  lemma DummyExample()
    ensures FromStr("dummy") == Err(UnknownZkvm("dummy", None))
    ensures ErrorMessage(FromStr("dummy").error) == "unknown zkvm \"" + "dummy" + "\"" + ValidOptions
  {
    DummyIsUnlisted("dummy");
    UnlistedGetsNoSuggestion("dummy");
  }

  /**
   * A canonical name typed with other capitals and with whitespace around it
   * is refused, and its backend is suggested.
   */
  lemma PaddedCaseVariant(pre: string, mid: string, post: string, id: ZkvmIdent)
    requires forall i :: 0 <= i < |pre| ==> IsWhitespace(pre[i])
    requires forall i :: 0 <= i < |post| ==> IsWhitespace(post[i])
    requires mid != [] && !IsWhitespace(mid[0]) && !IsWhitespace(mid[|mid| - 1])
    requires |mid| == |Name(id)| && forall i :: 0 <= i < |mid| ==> ToLowerChar(mid[i]) == Name(id)[i]
    requires pre + mid + post != Name(id)
    ensures FromStr(pre + mid + post) == Err(UnknownZkvm(pre + mid + post, Some(Name(id))))
  {
    TrimPadded(pre, mid, post);
    assert ToLower(mid) == Name(id);
    CaseVariantSuggestsCanonical(pre + mid + post, id);
  }

  /** `zkvm = " riSc0   "` in the suggestion compile-fail case. */
  lemma PaddedRisc0Example()
    ensures FromStr(" riSc0   ") == Err(UnknownZkvm(" riSc0   ", Some("risc0")))
  {
    assert " riSc0   " == " " + "riSc0" + "   ";
    PaddedCaseVariant(" ", "riSc0", "   ", Risc0);
  }

  /** `zkvm = "SP1"` in the same case. */
  lemma UpperSp1Example()
    ensures FromStr("SP1") == Err(UnknownZkvm("SP1", Some("sp1")))
  {
    assert "SP1" == "" + "SP1" + "";
    PaddedCaseVariant("", "SP1", "", Sp1);
  }

  /** `zkvm = "PICO"` in the same case. */
  lemma UpperPicoExample()
    ensures FromStr("PICO") == Err(UnknownZkvm("PICO", Some("pico")))
  {
    assert "PICO" == "" + "PICO" + "";
    PaddedCaseVariant("", "PICO", "", Pico);
  }

  /** `zkvm = "ZISK"` in the same case. */
  lemma UpperZiskExample()
    ensures FromStr("ZISK") == Err(UnknownZkvm("ZISK", Some("zisk")))
  {
    assert "ZISK" == "" + "ZISK" + "";
    PaddedCaseVariant("", "ZISK", "", Zisk);
  }

  /** `needle` at `k` in `tail` is at `|head| + k` in `head + tail`. */
  lemma OccursAfter(head: string, tail: string, needle: string, k: nat)
    requires OccursAt(tail, needle, k)
    ensures OccursAt(head + tail, needle, |head| + k)
  {
    assert (head + tail)[|head| + k..|head| + k + |needle|] == tail[k..k + |needle|];
  }

  /** The message begins by quoting the raw input. */
  lemma MessageQuotesInput(e: ParseZkvmIdentError)
    ensures OccursAt(ErrorMessage(e), "unknown zkvm \"" + e.input + "\"", 0)
  {
    var head := "unknown zkvm \"" + e.input + "\"";
    assert ErrorMessage(e) == head + FormatSuggestion(e.suggestion);
    assert ErrorMessage(e)[..|head|] == head;
  }

  /** With a suggestion, the message ends by naming it. */
  lemma MessageNamesSuggestion(e: ParseZkvmIdentError)
    requires e.suggestion.Some?
    ensures OccursAt(ErrorMessage(e), Quoted(e.suggestion.value) + "?", |ErrorMessage(e)| - |e.suggestion.value| - 3)
  {
    var m := ErrorMessage(e);
    var tail := Quoted(e.suggestion.value) + "?";
    assert m == ("unknown zkvm \"" + e.input + "\"" + " - maybe you wanted to use ") + tail;
    assert m[|m| - |tail|..] == tail;
  }

  /** `b` sits at `|a|` in `a + b + c`. */
  lemma OccursBetween(a: string, b: string, c: string)
    ensures OccursAt(a + b + c, b, |a|)
  {
    assert (a + b + c)[|a|..|a| + |b|] == b;
  }

  /** `needle` occurs somewhere in `hay`. */
  ghost predicate Occurs(hay: string, needle: string) {
    exists k: nat :: OccursAt(hay, needle, k)
  }

  /** An occurrence survives appending. */
  lemma OccursExtends(hay: string, tail: string, needle: string)
    ensures Occurs(hay, needle) ==> Occurs(hay + tail, needle)
  {
    if Occurs(hay, needle) {
      var k: nat :| OccursAt(hay, needle, k);
      assert (hay + tail)[k..k + |needle|] == hay[k..k + |needle|];
      assert OccursAt(hay + tail, needle, k);
    }
  }

  /** What is appended occurs. */
  lemma OccursAppended(hay: string, piece: string)
    ensures Occurs(hay + piece, piece)
  {
    OccursBetween(hay, piece, "");
    assert hay + piece + "" == hay + piece;
  }

  /** Each of the five items of `lead a, b, c, d and e.` occurs in it. */
  lemma ListOfFive(lead: string, a: string, b: string, c: string, d: string, e: string, x: string)
    requires x in {a, b, c, d, e}
    ensures Occurs(lead + a + ", " + b + ", " + c + ", " + d + " and " + e + ".", x)
  {
    var s1 := lead + a;   OccursAppended(lead, a); OccursExtends(s1, ", ", x);
    var s2 := s1 + ", ";  OccursExtends(s2, b, x);
    var s3 := s2 + b;     OccursAppended(s2, b); OccursExtends(s3, ", ", x);
    var s4 := s3 + ", ";  OccursExtends(s4, c, x);
    var s5 := s4 + c;     OccursAppended(s4, c); OccursExtends(s5, ", ", x);
    var s6 := s5 + ", ";  OccursExtends(s6, d, x);
    var s7 := s6 + d;     OccursAppended(s6, d); OccursExtends(s7, " and ", x);
    var s8 := s7 + " and "; OccursExtends(s8, e, x);
    var s9 := s8 + e;     OccursAppended(s8, e); OccursExtends(s9, ".", x);
  }

  /** Each quoted canonical name occurs in the list of valid options. */
  lemma OptionsListName(id: ZkvmIdent)
    ensures exists k: nat :: OccursAt(ValidOptions, Quoted(Name(id)), k)
  {
    ListOfFive(" - valid options are ", Quoted(Name(Risc0)), Quoted(Name(Sp1)), Quoted(Name(Pico)),
               Quoted(Name(Ziren)), Quoted(Name(Zisk)), Quoted(Name(id)));
  }

  /** Without a suggestion, the message lists every canonical name. */
  lemma MessageListsAllOptions(e: ParseZkvmIdentError, id: ZkvmIdent)
    requires e.suggestion.None?
    ensures exists k: nat :: OccursAt(ErrorMessage(e), Quoted(Name(id)), k)
  {
    var head := "unknown zkvm \"" + e.input + "\"";
    assert ErrorMessage(e) == head + ValidOptions;
    OptionsListName(id);
    var k: nat :| OccursAt(ValidOptions, Quoted(Name(id)), k);
    OccursAfter(head, ValidOptions, Quoted(Name(id)), k);
  }

  /** The five predicates are pairwise distinct. */
  lemma CfgAttrInjective(a: ZkvmIdent, b: ZkvmIdent)
    ensures CfgAttr(a) == CfgAttr(b) <==> a == b
  {
  }

  // ---------------------------------------------------------------------
  // The unit tests of the source, as facts about the model
  // ---------------------------------------------------------------------

  /** `correct_zkvm_identifiers_must_be_parsed` and `incorrect_zkvm_identifiers_must_be_rejected` */
  lemma UnitTestIdentifiers()
    ensures FromStr("risc0") == Ok(Risc0) && FromStr("sp1") == Ok(Sp1) && FromStr("pico") == Ok(Pico)
    ensures FromStr("ziren") == Ok(Ziren) && FromStr("zisk") == Ok(Zisk)
    ensures forall s :: s in ["risc", "SP1", "risczero", "R0", "r0", "succinct", "picovm", "zkpico",
                              "zkvm-pico", "pico-zkvm", "pico ", "brevis", "brevis-pico", " pico ",
                              "ziren ", "Ziren", "zkm", "zkm-zkvm", "Zisk", "zIsk", "zisK"]
                        ==> FromStr(s).Err?
  {
  }
}
