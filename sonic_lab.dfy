/** The concept generator of the lab section (components/SonicLab.tsx): a mood text field,
    a submit handler that goes Idle -> Loading -> Showing around one remote call, and an
    output panel with three regions chosen by `(concept, isLoading)`. The remote call is an
    input to the model: it either resolves with a concept or fails. */
module SonicLab {
  import opened Types

  /** The characters removed by JavaScript's `String.prototype.trim`: white space
      (tab, vertical tab, form feed, the space separators, the byte-order mark)
      and line terminators. */
  predicate IsTrimSpace(c: char) {
    c == '\t' || c == '\n' || c == '\U{0B}' || c == '\U{0C}' || c == '\r' || c == ' ' ||
    c == '\U{A0}' || c == '\U{1680}' || ('\U{2000}' <= c <= '\U{200A}') ||
    c == '\U{2028}' || c == '\U{2029}' || c == '\U{202F}' || c == '\U{205F}' ||
    c == '\U{3000}' || c == '\U{FEFF}'
  }

  predicate Blank(s: string) {
    forall i :: 0 <= i < |s| ==> IsTrimSpace(s[i])
  }

  /** `s` without its leading trimmed characters. */
  function TrimStart(s: string): (r: string)
    ensures |r| <= |s| && r == s[|s| - |r|..]
    ensures Blank(s[..|s| - |r|])
    ensures r != [] ==> !IsTrimSpace(r[0])
  {
    if s != [] && IsTrimSpace(s[0]) then
      var r := TrimStart(s[1..]);
      assert s[..|s| - |r|] == [s[0]] + s[1..][..|s[1..]| - |r|];
      r
    else s
  }

  /** `s` without its trailing trimmed characters. */
  function TrimEnd(s: string): (r: string)
    ensures |r| <= |s| && r == s[..|r|]
    ensures Blank(s[|r|..])
    ensures r != [] ==> !IsTrimSpace(r[|r| - 1])
  {
    if s != [] && IsTrimSpace(s[|s| - 1]) then
      var r := TrimEnd(s[..|s| - 1]);
      assert s[|r|..] == s[..|s| - 1][|r|..] + [s[|s| - 1]];
      r
    else s
  }

  /** `s.trim()`: what is left of `s` once both blank ends are removed. */
  function Trim(s: string): (r: string)
    ensures exists p, q :: s == p + r + q && Blank(p) && Blank(q)
    ensures r != [] ==> !IsTrimSpace(r[0]) && !IsTrimSpace(r[|r| - 1])
  {
    var t := TrimStart(s);
    var r := TrimEnd(t);
    BlankEnds(s, t, r);
    r
  }

  /** Cutting a blank prefix off `s` and then a blank suffix off what is left keeps
      a middle part of `s` whose first character is the first character left after the prefix. */
  lemma BlankEnds(s: string, t: string, r: string)
    requires |t| <= |s| && t == s[|s| - |t|..] && Blank(s[..|s| - |t|])
    requires |r| <= |t| && r == t[..|r|] && Blank(t[|r|..])
    ensures exists p, q :: s == p + r + q && Blank(p) && Blank(q)
    ensures r != [] ==> r[0] == t[0]
  {
    var p, q := s[..|s| - |t|], t[|r|..];
    assert t == r + q;
    assert s == p + t;
    assert s == p + r + q;
  }

  /** `mood.trim()` is empty exactly when every character of the mood is trimmed. */
  lemma TrimEmptyIffBlank(s: string)
    ensures Trim(s) == "" <==> Blank(s)
  {
    var t := TrimStart(s);
    if Trim(s) == "" {
      assert Blank(t[0..]) && t[0..] == t;
      assert t == [];
      assert s[..|s| - |t|] == s;
    }
  }

  /** What the remote call produced. */
  datatype Reply = Success(concept: SonicConcept) | Failure

  /** The concept shown when the remote call fails. */
  const Fallback := SonicConcept(
    "L'Heure Bleue",
    "Velours, Cinématique, Nostalgique",
    ["Piano Felt", "Synthétiseur Analogique", "Pluie"],
    "The feeling of walking home alone in Paris as the streetlights flicker on—a tender solitude wrapped in blue light.",
    Some("Slow attack, high reverb, low-pass filter at 200Hz"),
    Some("#1e3a8a"))

  function ConceptOf(reply: Reply): (c: SonicConcept)
    ensures reply.Success? ==> c == reply.concept
    ensures reply.Failure? ==> c.title == "L'Heure Bleue" && c == Fallback
  {
    match reply
    case Success(c) => c
    case Failure => Fallback
  }

  /** The three regions of the output panel and their guards. */
  datatype Region = PlaceholderIcon | LoadingIndicator | Result

  predicate ShowsPlaceholder(concept: Option<SonicConcept>, isLoading: bool) { concept.None? && !isLoading }
  predicate ShowsLoading(concept: Option<SonicConcept>, isLoading: bool) { isLoading }
  predicate ShowsResult(concept: Option<SonicConcept>, isLoading: bool) { concept.Some? && !isLoading }

  /** The region on screen; each guard holds exactly for its own region, so exactly one is shown. */
  function VisibleRegion(concept: Option<SonicConcept>, isLoading: bool): (r: Region)
    ensures ShowsPlaceholder(concept, isLoading) <==> r == PlaceholderIcon
    ensures ShowsLoading(concept, isLoading) <==> r == LoadingIndicator
    ensures ShowsResult(concept, isLoading) <==> r == Result
  {
    if isLoading then LoadingIndicator
    else if concept.None? then PlaceholderIcon
    else Result
  }

  /** `disabled={isLoading || !mood}`: only the empty string counts as no mood here. */
  predicate SubmitDisabled(isLoading: bool, mood: string) {
    isLoading || mood == ""
  }

  const DefaultAccent: string := "#C4A968"

  /** `concept.visualHex || '#C4A968'`. */
  function AccentColour(c: SonicConcept): (r: string)
    ensures r != ""
    ensures Truthy(c.visualHex) ==> r == c.visualHex.value
    ensures !Truthy(c.visualHex) ==> r == DefaultAccent
  {
    if Truthy(c.visualHex) then c.visualHex.value else DefaultAccent
  }

  /** A mood of spaces enables the button, yet the handler ignores it. */
  lemma BlankMoodEnabledButIgnored(mood: string)
    requires mood != "" && Blank(mood)
    ensures !SubmitDisabled(false, mood)
    ensures Trim(mood) == ""
  {
    TrimEmptyIffBlank(mood);
  }

  /** The fallback concept keeps its own accent. */
  lemma FallbackAccent()
    ensures AccentColour(ConceptOf(Failure)) == "#1e3a8a"
  {
  }

  /** The component's state. */
  class Lab {
    var mood: string
    var isLoading: bool
    var concept: Option<SonicConcept>

    constructor ()
      ensures mood == "" && !isLoading && concept == None
    {
      mood := "";
      isLoading := false;
      concept := None;
    }

    /** The text field's change handler. */
    method SetMood(value: string)
      modifies this`mood
      ensures mood == value
    {
      mood := value;
    }

    /** The handler up to the `await`: ignore a blank mood, else enter the loading state. */
    method Submit() returns (started: bool)
      modifies this
      ensures started <==> Trim(old(mood)) != ""
      ensures started ==> isLoading && concept == None
      ensures !started ==> isLoading == old(isLoading) && concept == old(concept)
      ensures mood == old(mood)
    {
      if Trim(mood) == "" {
        return false;
      }
      isLoading := true;
      concept := None;
      started := true;
    }

    /** The handler after the `await`: show the reply or the fallback, then leave loading. */
    method Resolve(reply: Reply)
      modifies this
      ensures concept == Some(ConceptOf(reply))
      ensures !isLoading
      ensures mood == old(mood)
    {
      match reply {
        case Success(c) =>
          concept := Some(c);
        case Failure =>
          concept := Some(Fallback);
      }
      isLoading := false;
    }

    /** The whole handler, for a remote call that produces `reply`. */
    method HandleGenerate(reply: Reply) returns (started: bool)
      modifies this
      ensures started <==> !Blank(old(mood))
      ensures started ==> concept == Some(ConceptOf(reply)) && !isLoading &&
                          VisibleRegion(concept, isLoading) == Result
      ensures !started ==> isLoading == old(isLoading) && concept == old(concept)
      ensures mood == old(mood)
    {
      TrimEmptyIffBlank(mood);
      started := Submit();
      if started {
        assert VisibleRegion(concept, isLoading) == LoadingIndicator;
        Resolve(reply);
      }
    }
  }
}
