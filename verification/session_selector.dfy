/** The session tabs of the timing page: a short label per session, read
    from keywords of its lower-cased name, and the tab of the selected
    session marked active. */
module SessionSelector {
  import opened Common
  import opened F1Types

  /** The keyword tests of the tabs, in the order they are tried, each with
      the label it gives. */
  const LabelRules: seq<(string, string)> := [
    ("practice 1", "FP1"), ("practice 2", "FP2"), ("practice 3", "FP3"),
    ("sprint qualifying", "SQ"), ("qualifying", "QUALI"), ("sprint", "SPRINT"), ("race", "RACE")]

  /** `shortLabel`: the keyword tests run in order on the lower-cased name;
      the first keyword found gives the label, and a name with none of them
      is shown upper-cased. */
  function ShortLabel(sessionName: string): (short: string)
    ensures short in {"FP1", "FP2", "FP3", "SQ", "QUALI", "SPRINT", "RACE", ToUpper(sessionName)}
  {
    var name := ToLower(sessionName);
    if Contains(name, "practice 1") then "FP1"
    else if Contains(name, "practice 2") then "FP2"
    else if Contains(name, "practice 3") then "FP3"
    else if Contains(name, "sprint qualifying") then "SQ"
    else if Contains(name, "qualifying") then "QUALI"
    else if Contains(name, "sprint") then "SPRINT"
    else if Contains(name, "race") then "RACE"
    else ToUpper(sessionName)
  }

  /** The label is the one of the first keyword test the lower-cased name
      passes. */
  lemma ShortLabelFirstMatch(sessionName: string, k: nat)
    requires k < |LabelRules| && Contains(ToLower(sessionName), LabelRules[k].0)
    requires forall j | 0 <= j < k :: !Contains(ToLower(sessionName), LabelRules[j].0)
    ensures ShortLabel(sessionName) == LabelRules[k].1
  {
    var name := ToLower(sessionName);
    if k == 0 {
    } else if k == 1 {
      assert !Contains(name, LabelRules[0].0);
    } else if k == 2 {
      assert !Contains(name, LabelRules[0].0) && !Contains(name, LabelRules[1].0);
    } else if k == 3 {
      assert !Contains(name, LabelRules[0].0) && !Contains(name, LabelRules[1].0) && !Contains(name, LabelRules[2].0);
    } else {
      assert !Contains(name, LabelRules[0].0) && !Contains(name, LabelRules[1].0) && !Contains(name, LabelRules[2].0);
      assert !Contains(name, LabelRules[3].0);
      if k >= 5 {
        assert !Contains(name, LabelRules[4].0);
      }
      if k == 6 {
        assert !Contains(name, LabelRules[5].0);
      }
    }
  }

  /** A name that passes none of the keyword tests is shown upper-cased. */
  lemma ShortLabelNoMatch(sessionName: string)
    requires forall k | 0 <= k < |LabelRules| :: !Contains(ToLower(sessionName), LabelRules[k].0)
    ensures ShortLabel(sessionName) == ToUpper(sessionName)
  {
    var name := ToLower(sessionName);
    assert !Contains(name, LabelRules[0].0) && !Contains(name, LabelRules[1].0) && !Contains(name, LabelRules[2].0);
    assert !Contains(name, LabelRules[3].0) && !Contains(name, LabelRules[4].0);
    assert !Contains(name, LabelRules[5].0) && !Contains(name, LabelRules[6].0);
  }

  lemma LowerOfUpperChar(c: char)
    ensures LowerChar(UpperChar(c)) == LowerChar(c)
    ensures UpperChar(LowerChar(c)) == UpperChar(c)
    ensures LowerChar(LowerChar(c)) == LowerChar(c)
    ensures UpperChar(UpperChar(c)) == UpperChar(c)
  {
  }

  /** Lower-casing forgets the case the text came in. */
  lemma CaseFolds(s: string)
    ensures ToLower(ToUpper(s)) == ToLower(s) && ToLower(ToLower(s)) == ToLower(s)
    ensures ToUpper(ToLower(s)) == ToUpper(s) && ToUpper(ToUpper(s)) == ToUpper(s)
  {
    forall i | 0 <= i < |s|
      ensures LowerChar(UpperChar(s[i])) == LowerChar(s[i]) && UpperChar(LowerChar(s[i])) == UpperChar(s[i])
      ensures LowerChar(LowerChar(s[i])) == LowerChar(s[i]) && UpperChar(UpperChar(s[i])) == UpperChar(s[i])
    {
      LowerOfUpperChar(s[i]);
    }
  }

  /** The label does not depend on the case of the name. */
  lemma ShortLabelIgnoresCase(sessionName: string)
    ensures ShortLabel(ToLower(sessionName)) == ShortLabel(sessionName)
    ensures ShortLabel(ToUpper(sessionName)) == ShortLabel(sessionName)
  {
    CaseFolds(sessionName);
  }

  /** A sprint qualifying session is labelled "SQ" unless its name also
      names a practice session; it is never labelled as a qualifying or a
      sprint session. */
  lemma SprintQualifyingIsSQ(sessionName: string)
    requires Contains(ToLower(sessionName), "sprint qualifying")
    ensures var short := ShortLabel(sessionName);
      short != "QUALI" && short != "SPRINT"
      && (short == "SQ" || short == "FP1" || short == "FP2" || short == "FP3")
  {
  }

  lemma LowerSprintQualifying()
    ensures ToLower("Sprint Qualifying") == "sprint qualifying"
  {
  }

  /** "Sprint Qualifying" is labelled "SQ". */
  lemma SprintQualifyingExample()
    ensures ShortLabel("Sprint Qualifying") == "SQ"
  {
    LowerSprintQualifying();
    var sq := "sprint qualifying";
    NotContainsMissingChar(sq, "practice 1", 3);
    NotContainsMissingChar(sq, "practice 2", 3);
    NotContainsMissingChar(sq, "practice 3", 3);
    assert StartsWith(sq, "sprint qualifying");
  }

  /** Lower-casing a name with only its first letter in upper case. */
  lemma LowerOfCapitalised(s: string)
    requires s != [] && 'A' <= s[0] <= 'Z'
    requires forall i | 1 <= i < |s| :: !('A' <= s[i] <= 'Z')
    ensures ToLower(s) == [LowerChar(s[0])] + s[1..]
  {
  }

  /** The three practice sessions are labelled FP1, FP2 and FP3: each
      name lacks the digit of the tests before its own. */
  lemma FirstPracticeLabel()
    ensures ShortLabel("Practice 1") == "FP1"
  {
    LowerOfCapitalised("Practice 1");
    assert ToLower("Practice 1") == "practice 1";
    assert StartsWith("practice 1", "practice 1");
  }

  lemma SecondPracticeLabel()
    ensures ShortLabel("Practice 2") == "FP2"
  {
    SecondPracticeTests("Practice 2");
    LabelAfterOneTest("Practice 2", ToLower("Practice 2"));
  }

  /** "practice 2" fails the first test and passes the second. */
  lemma SecondPracticeTests(sessionName: string)
    requires sessionName == "Practice 2"
    ensures !Contains(ToLower(sessionName), "practice 1")
    ensures StartsWith(ToLower(sessionName), "practice 2")
  {
    LowerOfCapitalised(sessionName);
    var name := ToLower(sessionName);
    assert name == "practice 2";
    NotContainsMissingChar(name, "practice 1", 9);
  }

  /** A lower-cased name that fails the first test and passes the second
      is labelled FP2. */
  lemma LabelAfterOneTest(sessionName: string, name: string)
    requires name == ToLower(sessionName)
    requires !Contains(name, "practice 1")
    requires StartsWith(name, "practice 2")
    ensures ShortLabel(sessionName) == "FP2"
  {
  }

  lemma ThirdPracticeLabel()
    ensures ShortLabel("Practice 3") == "FP3"
  {
    ThirdPracticeTests("Practice 3");
    LabelAfterTwoTests("Practice 3", ToLower("Practice 3"));
  }

  /** "practice 3" fails the first two tests and passes the third. */
  lemma ThirdPracticeTests(sessionName: string)
    requires sessionName == "Practice 3"
    ensures !Contains(ToLower(sessionName), "practice 1") && !Contains(ToLower(sessionName), "practice 2")
    ensures StartsWith(ToLower(sessionName), "practice 3")
  {
    LowerOfCapitalised(sessionName);
    var name := ToLower(sessionName);
    assert name == "practice 3";
    NotContainsMissingChar(name, "practice 1", 9);
    NotContainsMissingChar(name, "practice 2", 9);
  }

  /** A lower-cased name that fails the first two tests and passes the
      third is labelled FP3. */
  lemma LabelAfterTwoTests(sessionName: string, name: string)
    requires name == ToLower(sessionName)
    requires !Contains(name, "practice 1") && !Contains(name, "practice 2")
    requires StartsWith(name, "practice 3")
    ensures ShortLabel(sessionName) == "FP3"
  {
  }

  /** One tab: its label and whether it is the selected session. */
  datatype Tab = Tab(sessionKey: int, caption: string, active: bool)

  /** The tabs, one per session in order; nothing is rendered for an empty
      list. A tab is active iff its key is the selected key. */
  function Tabs(sessions: seq<Session>, selectedKey: Option<int>): (tabs: Option<seq<Tab>>)
    ensures tabs.None? <==> sessions == []
    ensures tabs.Some? ==> |tabs.value| == |sessions|
    ensures tabs.Some? ==> forall i | 0 <= i < |sessions| ::
           tabs.value[i].sessionKey == sessions[i].sessionKey
           && tabs.value[i].caption == ShortLabel(sessions[i].sessionName)
           && (tabs.value[i].active <==> selectedKey.Some? && sessions[i].sessionKey == selectedKey.value)
  {
    if sessions == [] then None
    else
      Some(seq(|sessions|, i requires 0 <= i < |sessions| =>
        Tab(sessions[i].sessionKey, ShortLabel(sessions[i].sessionName),
          selectedKey.Some? && sessions[i].sessionKey == selectedKey.value)))
  }

  /** At most one tab is active when session keys are distinct. */
  lemma AtMostOneActive(sessions: seq<Session>, selectedKey: Option<int>)
    requires sessions != []
    requires forall i, j | 0 <= i < j < |sessions| :: sessions[i].sessionKey != sessions[j].sessionKey
    ensures var tabs := Tabs(sessions, selectedKey).value;
      forall i, j | 0 <= i < j < |tabs| :: !(tabs[i].active && tabs[j].active)
  {
  }
}
