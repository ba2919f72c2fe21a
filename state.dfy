/**
 * The `ModelFile.State` enum and the lookup `ModelFile.State[token.toUpperCase()]`
 * that turns a wire token into one of its members.
 */
module FileState {
  import opened Wrappers

  /** The three members of the enum, in declaration order. */
  datatype State = Default | Queued | Downloading

  /** The name a member is declared under, which is its key in the enum object. */
  function Key(s: State): string {
    match s
    case Default => "DEFAULT"
    case Queued => "QUEUED"
    case Downloading => "DOWNLOADING"
  }

  /** The string value a member is initialised with; this is also the backend's wire token. */
  function Token(s: State): string {
    match s
    case Default => "default"
    case Queued => "queued"
    case Downloading => "downloading"
  }

  /**
   * One property of the enum object at run time: a forward key holds the member,
   * a reverse key (the member's value) holds the member's name.
   */
  datatype EnumEntry = Member(state: State) | Name(key: string)

  /** The run-time object the TypeScript compiler emits for the enum, reverse mapping included. */
  const EnumObject: map<string, EnumEntry> := map[
    "DEFAULT" := Member(Default),
    "QUEUED" := Member(Queued),
    "DOWNLOADING" := Member(Downloading),
    "default" := Name("DEFAULT"),
    "queued" := Name("QUEUED"),
    "downloading" := Name("DOWNLOADING")
  ]

  predicate IsLower(c: char) {
    'a' <= c <= 'z'
  }

  /** Upper-cases one character; only the ASCII letters are mapped. */
  function UpperChar(c: char): char {
    if IsLower(c) then (c as int - 32) as char else c
  }

  /** `String.prototype.toUpperCase`, restricted to ASCII letters. */
  function ToUpper(s: string): (u: string)
    ensures |u| == |s|
    ensures forall i :: 0 <= i < |s| ==> u[i] == UpperChar(s[i])
  {
    if s == [] then [] else [UpperChar(s[0])] + ToUpper(s[1..])
  }

  /** Two strings that differ at most in the case of their ASCII letters. */
  predicate EqualsIgnoringCase(a: string, b: string) {
    |a| == |b| && forall i :: 0 <= i < |a| ==> UpperChar(a[i]) == UpperChar(b[i])
  }

  /**
   * `ModelFile.State[token.toUpperCase()]`: the member whose key is the upper-cased
   * token, or `None` (`undefined`) when there is none. An unknown token is not an error.
   */
  function ParseState(token: string): (r: Option<State>)
    ensures r.Some? ==> Key(r.value) == ToUpper(token)
    ensures r.None? ==> forall s: State :: Key(s) != ToUpper(token)
  {
    var key := ToUpper(token);
    if key in EnumObject && EnumObject[key].Member? then Some(EnumObject[key].state) else None
  }

  /** The upper-cased wire token of a member is its key. */
  lemma KeyIsUpperToken(s: State)
    ensures ToUpper(Token(s)) == Key(s)
  {
    match s
    case Default =>
    case Queued =>
    case Downloading =>
  }

  /** Upper-casing decides case-insensitive equality. */
  lemma ToUpperEqualIff(a: string, b: string)
    ensures ToUpper(a) == ToUpper(b) <==> EqualsIgnoringCase(a, b)
  {
    if EqualsIgnoringCase(a, b) {
      assert forall i :: 0 <= i < |a| ==> ToUpper(a)[i] == ToUpper(b)[i];
    }
  }

  /**
   * An upper-cased token never reaches a reverse key of the enum object, so the lookup
   * yields a member or `undefined`, never a member's name.
   */
  lemma ReverseKeysUnreachable(token: string)
    ensures ToUpper(token) in EnumObject ==> EnumObject[ToUpper(token)].Member?
  {
    var key := ToUpper(token);
    if key in EnumObject && EnumObject[key].Name? {
      assert key == "default" || key == "queued" || key == "downloading";
      assert IsLower(key[0]);
      assert false;
    }
  }

  /** Distinct members are declared under distinct keys. */
  lemma KeyInjective(a: State, b: State)
    requires Key(a) == Key(b)
    ensures a == b
  {
    assert |Key(a)| == |Key(b)|;
  }

  /** The lookup yields `s` exactly when the upper-cased token is `s`'s key. */
  lemma ParseStateIsKeyLookup(token: string, s: State)
    ensures ParseState(token) == Some(s) <==> ToUpper(token) == Key(s)
  {
    var r := ParseState(token);
    if r.Some? && ToUpper(token) == Key(s) {
      KeyInjective(r.value, s);
    }
  }

  /** The lookup ignores case: it yields `s` exactly for the casings of `s`'s wire token. */
  lemma ParseStateIgnoresCase(token: string, s: State)
    ensures ParseState(token) == Some(s) <==> EqualsIgnoringCase(token, Token(s))
  {
    ParseStateIsKeyLookup(token, s);
    KeyIsUpperToken(s);
    ToUpperEqualIff(token, Token(s));
  }

  /** A token that is no casing of any wire token yields `undefined`, and only such a token does. */
  lemma UnknownTokenHasNoState(token: string)
    ensures ParseState(token).None? <==> forall s: State :: !EqualsIgnoringCase(token, Token(s))
  {
    ParseStateIgnoresCase(token, Default);
    ParseStateIgnoresCase(token, Queued);
    ParseStateIgnoresCase(token, Downloading);
  }

  /** Tokens that differ only in letter case yield the same state. */
  lemma ParseStateCaseInvariant(t1: string, t2: string)
    requires EqualsIgnoringCase(t1, t2)
    ensures ParseState(t1) == ParseState(t2)
  {
    ToUpperEqualIff(t1, t2);
  }

  /** Each member is recovered from its wire token and from its key. */
  lemma ParseStateRoundTrip(s: State)
    ensures ParseState(Token(s)) == Some(s)
    ensures ParseState(Key(s)) == Some(s)
  {
    KeyIsUpperToken(s);
    ParseStateIsKeyLookup(Token(s), s);
    KeyUpperIsKey(s);
    ParseStateIsKeyLookup(Key(s), s);
  }

  /** A key is already upper case. */
  lemma KeyUpperIsKey(s: State)
    ensures ToUpper(Key(s)) == Key(s)
  {
    match s
    case Default =>
    case Queued =>
    case Downloading =>
  }

  /** A mixed-case token such as "Queued" names the member whose wire token is "queued". */
  lemma MixedCaseTokenExample()
    ensures ParseState("Queued") == Some(Queued)
  {
    assert ToUpper("Queued") == Key(Queued);
    ParseStateIsKeyLookup("Queued", Queued);
  }
}
