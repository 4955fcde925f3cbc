/**
 * The topic field of the dashboard: the session keeps a list of topics, and
 * pressing "Adicionar" appends the typed value unless it is blank or already
 * listed.
 */
module TopicInput {
  import opened Wrappers

  /** The part of the dashboard's session state that holds the topics. */
  class SessionState {
    /** Whether the session has a "topics" key at all. */
    var hasTopics: bool
    var topics: seq<string>

    /** A session that has not stored anything yet. */
    constructor()
      ensures !hasTopics && topics == []
    {
      hasTopics := false;
      topics := [];
    }

    /** The topic list, reading an absent key as the empty list it is initialised to. */
    function Topics(): seq<string>
      reads this
    {
      if hasTopics then topics else []
    }
  }

  // ---------------------------------------------------------------------------
  // str.strip()

  /** The characters Python's `str.strip()` removes when given no argument. */
  predicate IsWhitespace(c: char)
  {
    || c == ' '
    || ('\t' <= c <= '\r')
    || ('\U{1C}' <= c <= '\U{1F}')
    || c == '\U{85}' || c == '\U{A0}' || c == '\U{1680}'
    || ('\U{2000}' <= c <= '\U{200A}')
    || c == '\U{2028}' || c == '\U{2029}' || c == '\U{202F}' || c == '\U{205F}' || c == '\U{3000}'
  }

  predicate Blank(s: string)
  {
    forall k :: 0 <= k < |s| ==> IsWhitespace(s[k])
  }

  function TrimLeft(s: string): string
  {
    if s != [] && IsWhitespace(s[0]) then TrimLeft(s[1..]) else s
  }

  function TrimRight(s: string): string
  {
    if s != [] && IsWhitespace(s[|s| - 1]) then TrimRight(s[..|s| - 1]) else s
  }

  function Strip(s: string): string
  {
    TrimRight(TrimLeft(s))
  }

  /** Stripping on the left drops exactly the leading whitespace. */
  lemma {:induction false} TrimLeftShape(s: string) returns (i: nat)
    ensures i <= |s| && TrimLeft(s) == s[i..]
    ensures forall k :: 0 <= k < i ==> IsWhitespace(s[k])
    ensures i < |s| ==> !IsWhitespace(s[i])
  {
    if s != [] && IsWhitespace(s[0]) {
      var j := TrimLeftShape(s[1..]);
      i := j + 1;
      assert s[1..][j..] == s[i..];
      forall k | 0 <= k < i ensures IsWhitespace(s[k]) {
        if k > 0 { assert s[k] == s[1..][k - 1]; }
      }
    } else {
      i := 0;
    }
  }

  /** Stripping on the right drops exactly the trailing whitespace. */
  lemma {:induction false} TrimRightShape(s: string) returns (j: nat)
    ensures j <= |s| && TrimRight(s) == s[..j]
    ensures forall k :: j <= k < |s| ==> IsWhitespace(s[k])
    ensures 0 < j ==> !IsWhitespace(s[j - 1])
  {
    if s != [] && IsWhitespace(s[|s| - 1]) {
      var n := |s| - 1;
      j := TrimRightShape(s[..n]);
      assert s[..n][..j] == s[..j];
      forall k | j <= k < |s| ensures IsWhitespace(s[k]) {
        if k < n { assert s[k] == s[..n][k]; }
      }
    } else {
      j := |s|;
    }
  }

  /** `value.strip() == ""` holds exactly for the values made only of whitespace. */
  lemma StripBlank(s: string)
    ensures Strip(s) == [] <==> Blank(s)
  {
    var i := TrimLeftShape(s);
    var j := TrimRightShape(s[i..]);
    assert forall k :: i <= k < |s| ==> s[k] == s[i..][k - i];
  }

  // ---------------------------------------------------------------------------
  // The add rule

  /** What pressing (or not pressing) the button does. */
  datatype AddOutcome =
    | NotPressed     // nothing happens
    | EmptyWarning   // "Digite um tema para adicionar."
    | AlreadyAdded   // "Tema já adicionado!"
    | Added          // "Tema '...' adicionado!"

  /** The guards of the add button, in the order the dashboard checks them. */
  function Outcome(topics: seq<string>, value: string, pressed: bool): (r: AddOutcome)
    ensures r == NotPressed <==> !pressed
    ensures r == EmptyWarning <==> pressed && Blank(value)
    ensures r == AlreadyAdded <==> pressed && !Blank(value) && value in topics
    ensures r == Added <==> pressed && !Blank(value) && value !in topics
  {
    StripBlank(value);
    if !pressed then NotPressed
    else if value == "" || Strip(value) == "" then EmptyWarning
    else if value in topics then AlreadyAdded
    else Added
  }

  /** The topic list after the button press: appended to only when the value was added. */
  function AddTopic(topics: seq<string>, value: string, pressed: bool): (r: seq<string>)
    ensures Outcome(topics, value, pressed) != Added ==> r == topics
    ensures Outcome(topics, value, pressed) == Added ==>
              |r| == |topics| + 1 && r[..|topics|] == topics && r[|topics|] == value
    ensures NoDuplicates(topics) ==> NoDuplicates(r)
  {
    if Outcome(topics, value, pressed) == Added then topics + [value] else topics
  }

  /** The value is stored as typed: a leading space makes a new topic. */
  lemma RawValueIsStored()
    ensures AddTopic(["Bitcoin"], " Bitcoin", true) == ["Bitcoin", " Bitcoin"]
    ensures AddTopic(["Bitcoin"], "Bitcoin", true) == ["Bitcoin"]
    ensures AddTopic(["Bitcoin"], " \t", true) == ["Bitcoin"]
  {
    assert !IsWhitespace('B');
    assert " Bitcoin"[1] == 'B';
    assert " Bitcoin" != "Bitcoin" by { assert " Bitcoin"[0] != "Bitcoin"[0]; }
    assert "Bitcoin"[0] == 'B';
  }

  /** `TopicInput`: initialises the "topics" key when absent, then applies
      the add button to the typed value. */
  method AddTopicInput(session: SessionState, value: string, pressed: bool) returns (outcome: AddOutcome)
    modifies session
    ensures session.hasTopics
    ensures outcome == Outcome(old(session.Topics()), value, pressed)
    ensures session.topics == AddTopic(old(session.Topics()), value, pressed)
  {
    if !session.hasTopics {
      session.hasTopics := true;
      session.topics := [];
    }
    if !pressed {
      return NotPressed;
    }
    if value == "" || Strip(value) == "" {
      StripBlank(value);
      return EmptyWarning;
    }
    if value in session.topics {
      return AlreadyAdded;
    }
    session.topics := session.topics + [value];
    outcome := Added;
  }
}
