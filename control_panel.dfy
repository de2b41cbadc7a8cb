/**
 * The conversation control panel: the topic and limits of a new
 * conversation, the set of active roles, and the single-role test form.
 * The panel does not talk to the server itself; it hands the settings to
 * the callbacks it was given, which are recorded as effects.
 */
module ControlPanel {
  import opened Text

  /** A roster entry as the panel receives it. Temperatures are opaque. */
  datatype Role = Role(name: string, description: string, model: string, temperature: real, maxTokens: int)

  /** What `onStartConversation` receives. */
  datatype ConversationSettings = ConversationSettings(topic: string, maxTurns: int, maxTokens: int, activeRoles: seq<string>)

  /** What the panel does besides updating its own fields: a callback invoked, or an alert shown. */
  datatype Effect =
    | StartRequested(settings: ConversationSettings)
    | TestRequested(role: string, question: string)
    | Alert(text: string)

  const TopicMissing: string := "Please enter a topic for the conversation"
  const QuestionMissing: string := "Please enter a question for the role"
  const InitialMaxTurns: int := 2
  const InitialMaxTokens: int := 300

  // ---------------------------------------------------------------------------
  // handleRoleToggle

  /** `s.filter(r => r !== name)`: no occurrence of `name` is left, and the list does not grow. */
  function Remove(s: seq<string>, name: string): (r: seq<string>)
    ensures name !in r
    ensures |r| <= |s|
    decreases |s|
  {
    if s == [] then [] else (if s[0] == name then [] else [s[0]]) + Remove(s[1..], name)
  }

  /** The next active list: a present name is dropped everywhere, an absent one appended. */
  function Toggle(prev: seq<string>, name: string): (r: seq<string>)
    ensures name in r <==> name !in prev
  {
    if name in prev then Remove(prev, name) else prev + [name]
  }

  predicate NoDuplicates(s: seq<string>) {
    forall i, j :: 0 <= i < j < |s| ==> s[i] != s[j]
  }

  /** Filtering drops every occurrence of `name` and keeps every other name as often as it was there. */
  lemma {:induction false} RemoveCounts(s: seq<string>, name: string)
    ensures multiset(Remove(s, name)) == multiset(s)[name := 0]
    decreases |s|
  {
    if s != [] {
      RemoveCounts(s[1..], name);
      assert s == [s[0]] + s[1..];
    }
  }

  /** Filtering a list without repeats gives a list without repeats. */
  lemma {:induction false} RemoveKeepsDistinct(s: seq<string>, name: string)
    requires NoDuplicates(s)
    ensures NoDuplicates(Remove(s, name))
    decreases |s|
  {
    if s != [] {
      var t := s[1..];
      assert NoDuplicates(t) by {
        forall i, j | 0 <= i < j < |t| ensures t[i] != t[j] {
          assert t[i] == s[i + 1] && t[j] == s[j + 1];
        }
      }
      RemoveKeepsDistinct(t, name);
      RemoveCounts(t, name);
      assert s[0] !in t by {
        forall j | 0 <= j < |t| ensures t[j] != s[0] {
          assert t[j] == s[j + 1];
        }
      }
      assert s[0] !in Remove(t, name) by {
        assert multiset(Remove(t, name))[s[0]] == 0;
      }
    }
  }

  /** Filtering a name that is absent changes nothing. */
  lemma {:induction false} RemoveAbsent(s: seq<string>, name: string)
    requires name !in s
    ensures Remove(s, name) == s
    decreases |s|
  {
    if s != [] {
      RemoveAbsent(s[1..], name);
      assert s == [s[0]] + s[1..];
    }
  }

  /** Filtering a concatenation filters each part. */
  lemma {:induction false} RemoveAppend(s: seq<string>, t: seq<string>, name: string)
    ensures Remove(s + t, name) == Remove(s, name) + Remove(t, name)
    decreases |s|
  {
    if s == [] {
      assert s + t == t;
    } else {
      assert (s + t)[0] == s[0] && (s + t)[1..] == s[1..] + t;
      RemoveAppend(s[1..], t, name);
    }
  }

  /**
   * Toggling a present name removes every occurrence of it and keeps the
   * other names with their multiplicities; toggling an absent name appends
   * it at the end. Either way the name's membership flips.
   */
  lemma ToggleEffect(prev: seq<string>, name: string)
    ensures var r := Toggle(prev, name);
      && (name in prev ==> multiset(r) == multiset(prev)[name := 0])
      && (name !in prev ==> r == prev + [name])
      && (name in r <==> name !in prev)
  {
    if name in prev {
      RemoveCounts(prev, name);
      assert multiset(Toggle(prev, name))[name] == 0;
    }
  }

  /**
   * On a list without repeats, toggling a present name deletes it from its
   * position and keeps the other names in their order.
   */
  lemma ToggleRemovesInPlace(prev: seq<string>, i: nat)
    requires NoDuplicates(prev) && i < |prev|
    ensures Toggle(prev, prev[i]) == prev[..i] + prev[i + 1..]
  {
    var before, name, after := prev[..i], prev[i], prev[i + 1..];
    assert prev == before + [name] + after;
    assert name !in before by {
      forall j | 0 <= j < |before| ensures before[j] != name {
        assert before[j] == prev[j];
      }
    }
    assert name !in after by {
      forall j | 0 <= j < |after| ensures after[j] != name {
        assert after[j] == prev[i + 1 + j];
      }
    }
    RemoveSingle(before, name, after);
  }

  /** Filtering a name that occurs once removes just that occurrence. */
  lemma RemoveSingle(before: seq<string>, name: string, after: seq<string>)
    requires name !in before && name !in after
    ensures Remove(before + [name] + after, name) == before + after
  {
    var front := before + [name];
    assert Remove(front, name) == before by {
      RemoveAppend(before, [name], name);
      RemoveAbsent(before, name);
      assert [name][1..] == [];
    }
    assert Remove(front + after, name) == before + after by {
      RemoveAppend(front, after, name);
      RemoveAbsent(after, name);
    }
  }

  /** Toggling an absent name twice gives back the original list. */
  lemma ToggleTwiceRestores(prev: seq<string>, name: string)
    requires name !in prev
    ensures Toggle(Toggle(prev, name), name) == prev
  {
    RemoveAppend(prev, [name], name);
    RemoveAbsent(prev, name);
    assert Remove([name], name) == [];
  }

  /** Toggling keeps a list free of repeats. */
  lemma ToggleKeepsDistinct(prev: seq<string>, name: string)
    ensures NoDuplicates(prev) ==> NoDuplicates(Toggle(prev, name))
  {
    if NoDuplicates(prev) && name in prev {
      RemoveKeepsDistinct(prev, name);
    }
  }

  /** The panel's fields (`useState`) and the effects it has produced so far. */
  class ConversationControlPanel {
    var topic: string
    var maxTurns: int
    var maxTokens: int
    var activeRoles: seq<string>
    var testRole: string
    var testQuestion: string
    var effects: seq<Effect>

    /** The initial state for a roster: every role active, in roster order; the first role selected for testing. */
    constructor (roles: seq<Role>)
      ensures topic == "" && testQuestion == ""
      ensures maxTurns == InitialMaxTurns && maxTokens == InitialMaxTokens
      ensures |activeRoles| == |roles| && forall i :: 0 <= i < |roles| ==> activeRoles[i] == roles[i].name
      ensures testRole == if roles == [] then "" else roles[0].name
      ensures effects == []
    {
      topic := "";
      maxTurns := InitialMaxTurns;
      maxTokens := InitialMaxTokens;
      activeRoles := seq(|roles|, i requires 0 <= i < |roles| => roles[i].name);
      testRole := if |roles| > 0 && roles[0].name != "" then roles[0].name else "";
      testQuestion := "";
      effects := [];
    }

    /** `disabled={!topic.trim() || activeRoles.length === 0}`, negated. */
    function StartEnabled(): (enabled: bool)
      reads this
      ensures enabled <==> !IsBlank(topic) && activeRoles != []
    {
      TrimEmptyIff(topic);
      Trim(topic) != "" && |activeRoles| != 0
    }

    /** `disabled={!testQuestion.trim()}`, negated. */
    function TestEnabled(): (enabled: bool)
      reads this
      ensures enabled <==> !IsBlank(testQuestion)
    {
      TrimEmptyIff(testQuestion);
      Trim(testQuestion) != ""
    }

    /**
     * Start: a blank topic raises an alert and nothing else; otherwise the
     * callback receives the untrimmed topic, the limits and the active roles
     * as they are. The handler does not look at whether any role is active.
     */
    method HandleStartConversation()
      modifies this`effects
      ensures IsBlank(topic) ==> effects == old(effects) + [Alert(TopicMissing)]
      ensures !IsBlank(topic) ==>
        effects == old(effects) + [StartRequested(ConversationSettings(topic, maxTurns, maxTokens, activeRoles))]
    {
      TrimEmptyIff(topic);
      if Trim(topic) == "" {
        effects := effects + [Alert(TopicMissing)];
        return;
      }
      effects := effects + [StartRequested(ConversationSettings(topic, maxTurns, maxTokens, activeRoles))];
    }

    /** Test: a blank question raises an alert and nothing else; otherwise the callback receives the role and question. */
    method HandleTestRole()
      modifies this`effects
      ensures IsBlank(testQuestion) ==> effects == old(effects) + [Alert(QuestionMissing)]
      ensures !IsBlank(testQuestion) ==> effects == old(effects) + [TestRequested(testRole, testQuestion)]
    {
      TrimEmptyIff(testQuestion);
      if Trim(testQuestion) == "" {
        effects := effects + [Alert(QuestionMissing)];
        return;
      }
      effects := effects + [TestRequested(testRole, testQuestion)];
    }

    /**
     * A checkbox click: the name's membership flips, and a list without
     * repeats keeps none; unticking a name of such a list keeps the order of
     * the others, which is the order in which they will speak.
     */
    method HandleRoleToggle(roleName: string)
      modifies this`activeRoles
      ensures activeRoles == Toggle(old(activeRoles), roleName)
      ensures roleName in activeRoles <==> roleName !in old(activeRoles)
      ensures NoDuplicates(old(activeRoles)) ==> NoDuplicates(activeRoles)
      ensures NoDuplicates(old(activeRoles)) ==>
        forall i :: 0 <= i < |old(activeRoles)| && old(activeRoles)[i] == roleName ==>
          activeRoles == old(activeRoles)[..i] + old(activeRoles)[i + 1..]
    {
      ToggleEffect(activeRoles, roleName);
      ToggleKeepsDistinct(activeRoles, roleName);
      if NoDuplicates(activeRoles) {
        forall i | 0 <= i < |activeRoles| && activeRoles[i] == roleName
          ensures Toggle(activeRoles, roleName) == activeRoles[..i] + activeRoles[i + 1..]
        {
          ToggleRemovesInPlace(activeRoles, i);
        }
      }
      activeRoles := Toggle(activeRoles, roleName);
    }
  }
}
