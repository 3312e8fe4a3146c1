/** plugins/default_access_control/main.py: the default security-marking
    plugin. A marking is tokens separated by "//"; each segment is matched,
    ignoring case, against the long names and then the short names of the
    configured tokens. The token classes live in a module that is not part
    of this model; they are the datatype below. */
module AccessControl {
  import opened Wrappers
  import opened Exceptions
  import opened Json
  import opened Text

  datatype Token =
    | Classification(shortName: string, longName: string, level: int)
    | DisseminationControl(shortName: string, longName: string)
    | Unknown(text: string)
    | InvalidFormat
  {
    /** The names an InvalidFormat token is looked up under are taken to be
        empty; such a token never reaches the lookups from the built-in list. */
    function LongName(): string {
      match this
      case Classification(_, l, _) => l
      case DisseminationControl(_, l) => l
      case Unknown(t) => t
      case InvalidFormat => ""
    }
    function ShortName(): string {
      match this
      case Classification(s, _, _) => s
      case DisseminationControl(s, _) => s
      case Unknown(_) => ""
      case InvalidFormat => ""
    }
  }

  function TokenDict(kind: string, short: string, long: string, level: Option<int>): map<string, Json> {
    var data := map["short_name" := JStr(short), "long_name" := JStr(long)];
    map["type" := JStr(kind),
        "data" := JObj(if level.Some? then data["level" := JInt(level.value)] else data)]
  }

  /** `tokens_list`. */
  const TokensList: seq<map<string, Json>> := [
    TokenDict("Classification", "U", "Unclassified", Some(1)),
    TokenDict("Classification", "C", "Confidential", Some(2)),
    TokenDict("Classification", "S", "Secret", Some(3)),
    TokenDict("Classification", "TS", "Top Secret", Some(4)),
    TokenDict("DisseminationControl", "FOUO", "FOR OFFICIAL USE ONLY", None)
  ]

  /** The tokens `tokens_list` converts to. */
  const DefaultTokens: seq<Token> := [
    Classification("U", "Unclassified", 1),
    Classification("C", "Confidential", 2),
    Classification("S", "Secret", 3),
    Classification("TS", "Top Secret", 4),
    DisseminationControl("FOUO", "FOR OFFICIAL USE ONLY")
  ]

  /** `input.get(key)` as Python sees it: a missing key and a stored None
      both give None. */
  function GetOrNull(input: map<string, Json>, key: string): Json {
    if key in input then input[key] else JNull
  }

  /** The token constructors called with `**data`: the string names (and,
      for a classification, the integer level) must be there, otherwise
      the call raises TypeError. */
  function ConstructToken(kind: string, data: Json): Result<Token, Exception> {
    if !data.JObj? then Err(TypeError("argument after ** must be a mapping"))
    else
      var f := data.fields;
      if "short_name" !in f || "long_name" !in f || !f["short_name"].JStr? || !f["long_name"].JStr? then
        Err(TypeError("missing token name arguments"))
      else if kind == "Classification" then
        if "level" in f && f["level"].JInt?
        then Ok(Classification(f["short_name"].s, f["long_name"].s, f["level"].i))
        else Err(TypeError("missing token level argument"))
      else Ok(DisseminationControl(f["short_name"].s, f["long_name"].s))
  }

  /** `_convert_dict_to_token`. */
  function ConvertDictToToken(input: map<string, Json>): (r: Result<Token, Exception>)
    ensures GetOrNull(input, "type") == JNull || GetOrNull(input, "data") == JNull ==> r == Ok(InvalidFormat)
    ensures GetOrNull(input, "type") !in {JStr("Classification"), JStr("DisseminationControl")} ==> r == Ok(InvalidFormat)
    ensures r.Ok? && GetOrNull(input, "type") == JStr("Classification") && GetOrNull(input, "data") != JNull ==>
              r.value.Classification?
    ensures r.Ok? && GetOrNull(input, "type") == JStr("DisseminationControl") && GetOrNull(input, "data") != JNull ==>
              r.value.DisseminationControl?
  {
    var kind := GetOrNull(input, "type");
    var data := GetOrNull(input, "data");
    if kind == JNull || data == JNull then Ok(InvalidFormat)
    else if kind == JStr("Classification") then ConstructToken("Classification", data)
    else if kind == JStr("DisseminationControl") then ConstructToken("DisseminationControl", data)
    else Ok(InvalidFormat)
  }

  /** A well-formed classification entry converts to its classification. */
  lemma ClassificationEntryConverts(short: string, long: string, level: int)
    ensures ConvertDictToToken(TokenDict("Classification", short, long, Some(level)))
            == Ok(Classification(short, long, level))
  {
    var d := TokenDict("Classification", short, long, Some(level));
    assert GetOrNull(d, "type") == JStr("Classification");
  }

  /** A well-formed dissemination-control entry converts to its control. */
  lemma ControlEntryConverts(short: string, long: string)
    ensures ConvertDictToToken(TokenDict("DisseminationControl", short, long, None))
            == Ok(DisseminationControl(short, long))
  {
    var d := TokenDict("DisseminationControl", short, long, None);
    assert GetOrNull(d, "type") == JStr("DisseminationControl");
  }

  /** The built-in list converts, entry by entry, to DefaultTokens. */
  lemma TokensListConverts()
    ensures |TokensList| == |DefaultTokens|
    ensures forall i :: 0 <= i < |TokensList| ==> ConvertDictToToken(TokensList[i]) == Ok(DefaultTokens[i])
  {
    ClassificationEntryConverts("U", "Unclassified", 1);
    ClassificationEntryConverts("C", "Confidential", 2);
    ClassificationEntryConverts("S", "Secret", 3);
    ClassificationEntryConverts("TS", "Top Secret", 4);
    ControlEntryConverts("FOUO", "FOR OFFICIAL USE ONLY");
  }

  /** The name a lookup files a token under. */
  function Key(t: Token, long: bool): string {
    Upper(if long then t.LongName() else t.ShortName())
  }

  /** The lookup dict built by looping over `tokens` and writing each under
      its upper-cased name; a later token with the same name wins. */
  function Lookup(tokens: seq<Token>, long: bool): map<string, Token> {
    if |tokens| == 0 then map[]
    else
      var last := tokens[|tokens| - 1];
      Lookup(tokens[..|tokens| - 1], long)[Key(last, long) := last]
  }

  /** The lookup holds exactly the tokens' names. */
  lemma {:induction false} LookupKeys(tokens: seq<Token>, long: bool)
    ensures Lookup(tokens, long).Keys == set i | 0 <= i < |tokens| :: Key(tokens[i], long)
  {
    if |tokens| > 0 {
      var n := |tokens| - 1;
      LookupKeys(tokens[..n], long);
      assert (set i | 0 <= i < |tokens| :: Key(tokens[i], long))
          == (set i | 0 <= i < n :: Key(tokens[..n][i], long)) + {Key(tokens[n], long)};
    }
  }

  /** Under each name the lookup holds the last token that has it. */
  lemma {:induction false} LookupFindsLast(tokens: seq<Token>, long: bool, i: nat)
    requires i < |tokens|
    requires forall j :: i < j < |tokens| ==> Key(tokens[j], long) != Key(tokens[i], long)
    ensures Key(tokens[i], long) in Lookup(tokens, long)
    ensures Lookup(tokens, long)[Key(tokens[i], long)] == tokens[i]
  {
    var n := |tokens| - 1;
    if i < n {
      LookupFindsLast(tokens[..n], long, i);
    }
  }

  /** The token one segment becomes. */
  function ClassifySegment(longLookup: map<string, Token>, shortLookup: map<string, Token>, segment: string): Token {
    var key := Upper(segment);
    if key in longLookup then longLookup[key]
    else if key in shortLookup then shortLookup[key]
    else Unknown(segment)
  }

  /** What `_split_tokens` returns: one token per "//"-separated segment. */
  function SplitTokensSpec(tokens: seq<Token>, marking: string): (out: seq<Token>)
    ensures |out| == |Split(marking, "//")|
    ensures forall i :: 0 <= i < |out| ==>
      out[i] == ClassifySegment(Lookup(tokens, true), Lookup(tokens, false), Split(marking, "//")[i])
  {
    var segments := Split(marking, "//");
    seq(|segments|, i requires 0 <= i < |segments| =>
      ClassifySegment(Lookup(tokens, true), Lookup(tokens, false), segments[i]))
  }

  /** The upper-cased names under which a default token is a
      classification. */
  const ClassificationKeys: set<string> :=
    {"UNCLASSIFIED", "CONFIDENTIAL", "SECRET", "TOP SECRET", "U", "C", "S", "TS"}

  /** With the built-in tokens, a segment is a classification exactly when
      its upper-cased text is one of the four levels' long or short names. */
  lemma DefaultClassification(segment: string)
    ensures ClassifySegment(Lookup(DefaultTokens, true), Lookup(DefaultTokens, false), segment).Classification?
            <==> Upper(segment) in ClassificationKeys
  {
    DefaultLookups();
  }

  /** Upper-casing a literal, character by character. */
  lemma UpperIs(s: string, t: string)
    requires |s| == |t| && forall i :: 0 <= i < |s| ==> UpperChar(s[i]) == t[i]
    ensures Upper(s) == t
  {
  }

  /** The names the built-in tokens are filed under. */
  lemma DefaultKeys()
    ensures Key(DefaultTokens[0], true) == "UNCLASSIFIED" && Key(DefaultTokens[0], false) == "U"
    ensures Key(DefaultTokens[1], true) == "CONFIDENTIAL" && Key(DefaultTokens[1], false) == "C"
    ensures Key(DefaultTokens[2], true) == "SECRET" && Key(DefaultTokens[2], false) == "S"
    ensures Key(DefaultTokens[3], true) == "TOP SECRET" && Key(DefaultTokens[3], false) == "TS"
    ensures Key(DefaultTokens[4], true) == "FOR OFFICIAL USE ONLY" && Key(DefaultTokens[4], false) == "FOUO"
  {
    DefaultLongKeys();
    DefaultShortKeys();
  }

  lemma DefaultLongKeys()
    ensures Upper("Unclassified") == "UNCLASSIFIED" && Upper("Confidential") == "CONFIDENTIAL"
    ensures Upper("Secret") == "SECRET" && Upper("Top Secret") == "TOP SECRET"
    ensures Upper("FOR OFFICIAL USE ONLY") == "FOR OFFICIAL USE ONLY"
  {
    UpperIs("Unclassified", "UNCLASSIFIED");
    UpperIs("Confidential", "CONFIDENTIAL");
    UpperIs("Secret", "SECRET");
    UpperIs("Top Secret", "TOP SECRET");
    UpperIs("FOR OFFICIAL USE ONLY", "FOR OFFICIAL USE ONLY");
  }

  lemma DefaultShortKeys()
    ensures Upper("U") == "U" && Upper("C") == "C" && Upper("S") == "S" && Upper("TS") == "TS" && Upper("FOUO") == "FOUO"
  {
    UpperIs("U", "U");
    UpperIs("C", "C");
    UpperIs("S", "S");
    UpperIs("TS", "TS");
    UpperIs("FOUO", "FOUO");
  }

  /** The two lookups built from the built-in tokens. */
  lemma DefaultLookups()
    ensures Lookup(DefaultTokens, true) ==
      map["UNCLASSIFIED" := DefaultTokens[0], "CONFIDENTIAL" := DefaultTokens[1],
          "SECRET" := DefaultTokens[2], "TOP SECRET" := DefaultTokens[3],
          "FOR OFFICIAL USE ONLY" := DefaultTokens[4]]
    ensures Lookup(DefaultTokens, false) ==
      map["U" := DefaultTokens[0], "C" := DefaultTokens[1], "S" := DefaultTokens[2],
          "TS" := DefaultTokens[3], "FOUO" := DefaultTokens[4]]
  {
    DefaultKeys();
    var d := DefaultTokens;
    assert d[..1][..0] == [];
    assert Lookup(d[..1], true) == map["UNCLASSIFIED" := d[0]];
    assert Lookup(d[..1], false) == map["U" := d[0]];
    assert d[..2][..1] == d[..1];
    assert Lookup(d[..2], true) == map["UNCLASSIFIED" := d[0], "CONFIDENTIAL" := d[1]];
    assert Lookup(d[..2], false) == map["U" := d[0], "C" := d[1]];
    assert d[..3][..2] == d[..2];
    assert Lookup(d[..3], true) == map["UNCLASSIFIED" := d[0], "CONFIDENTIAL" := d[1], "SECRET" := d[2]];
    assert Lookup(d[..3], false) == map["U" := d[0], "C" := d[1], "S" := d[2]];
    assert d[..4][..3] == d[..3];
    assert Lookup(d[..4], true) == map["UNCLASSIFIED" := d[0], "CONFIDENTIAL" := d[1], "SECRET" := d[2],
                                       "TOP SECRET" := d[3]];
    assert Lookup(d[..4], false) == map["U" := d[0], "C" := d[1], "S" := d[2], "TS" := d[3]];
    assert d[..5][..4] == d[..4];
    assert d[..5] == d;
  }

  /** Two segments equal up to case classify alike, unless neither names a
      token (then each keeps its own text). */
  lemma CaseInsensitive(tokens: seq<Token>, a: string, b: string)
    requires Upper(a) == Upper(b)
    ensures var ta := ClassifySegment(Lookup(tokens, true), Lookup(tokens, false), a);
            var tb := ClassifySegment(Lookup(tokens, true), Lookup(tokens, false), b);
            ta == tb || (ta == Unknown(a) && tb == Unknown(b))
  {
  }

  class PluginMain {
    const tokens: seq<Token>

    /** The constructor converts `tokens_list`. */
    constructor ()
      ensures tokens == DefaultTokens
    {
      TokensListConverts();
      tokens := DefaultTokens;
    }

    /** One of the two lookup loops of `_split_tokens`. */
    method BuildLookup(long: bool) returns (lookup: map<string, Token>)
      ensures lookup == Lookup(tokens, long)
    {
      lookup := map[];
      var i := 0;
      while i < |tokens|
        invariant i <= |tokens|
        invariant lookup == Lookup(tokens[..i], long)
      {
        lookup := lookup[Key(tokens[i], long) := tokens[i]];
        i := i + 1;
        assert tokens[..i][..i - 1] == tokens[..i - 1];
      }
      assert tokens[..i] == tokens;
    }

    /** `_split_tokens`: builds the long-name and short-name lookups, then
        turns each segment into a token in order. */
    method SplitTokens(marking: string) returns (out: seq<Token>)
      ensures out == SplitTokensSpec(tokens, marking)
    {
      var longLookup := BuildLookup(true);
      var shortLookup := BuildLookup(false);
      var markings := Split(marking, "//");
      out := [];
      var j := 0;
      while j < |markings|
        invariant j <= |markings|
        invariant |out| == j
        invariant forall k :: 0 <= k < j ==> out[k] == ClassifySegment(longLookup, shortLookup, markings[k])
      {
        out := out + [ClassifySegment(longLookup, shortLookup, markings[j])];
        j := j + 1;
      }
      assert out == SplitTokensSpec(tokens, marking);
    }

    /** `validate_marking`: False for None or ''; otherwise whether the
        first token is a classification. */
    method ValidateMarking(marking: Option<string>) returns (valid: bool)
      ensures marking.None? || marking.value == "" ==> !valid
      ensures marking.Some? && marking.value != "" ==>
                (valid <==> SplitTokensSpec(tokens, marking.value)[0].Classification?)
      ensures tokens == DefaultTokens && marking.Some? && marking.value != "" ==>
                (valid <==> Upper(Split(marking.value, "//")[0]) in ClassificationKeys)
    {
      if marking.None? || marking.value == "" {
        return false;
      }
      var out := SplitTokens(marking.value);
      DefaultClassification(Split(marking.value, "//")[0]);
      return out[0].Classification?;
    }
  }

  /** `has_access`: the default plugin grants every access. */
  function HasAccess(userAccessesJson: string, marking: string): (granted: bool)
    ensures granted
  {
    true
  }
}
