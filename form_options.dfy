/**
 * The values the predict form's coded answers can take without typing: the form's
 * default values and the items of its Select and Radio widgets. A widget hands
 * `parseInt(item)` to the form, so the option sets are the parsed item strings.
 */
module FormOptions {
  import opened Common
  import opened Assessment

  const DefaultGender: int := 1
  const DefaultSmoke: int := 0
  const DefaultAlco: int := 0
  const DefaultActive: int := 1
  const DefaultCholesterol: int := 1
  const DefaultGluc: int := 1

  /** Item values of the gender Select. */
  const GenderItems: seq<string> := ["1", "2"]
  /** Item values of the cholesterol and glucose Selects. */
  const LevelItems: seq<string> := ["1", "2", "3"]
  /** Item values of the smoking, alcohol and activity RadioGroups. */
  const YesNoItems: seq<string> := ["0", "1"]

  predicate IsDigit(c: char) {
    '0' <= c <= '9'
  }

  function DigitValue(c: char): nat
    requires IsDigit(c)
  {
    (c as int) - ('0' as int)
  }

  /** The value of the longest run of leading digits of s, after `acc` has been read. */
  function DigitRun(s: string, acc: nat): (n: nat)
    ensures n >= acc
    ensures s == [] ==> n == acc
    decreases |s|
  {
    if s == [] || !IsDigit(s[0]) then acc else DigitRun(s[1..], acc * 10 + DigitValue(s[0]))
  }

  /** `parseInt(s)` for strings that start with a decimal digit or are empty; `None` is NaN.
      (Leading blanks, signs and radix prefixes do not occur in the item values.) */
  function ParseInt(s: string): (n: Option<int>)
    ensures n.Some? <==> s != [] && IsDigit(s[0])
    ensures n.Some? && |s| == 1 ==> n.value == DigitValue(s[0])
  {
    if s == [] || !IsDigit(s[0]) then None
    else
      assert |s| == 1 ==> s[1..] == [];
      Some(DigitRun(s, 0))
  }

  /** The numbers a widget with these items can hand to the form. */
  function Choices(items: seq<string>): (c: set<int>)
    ensures forall s :: s in items && ParseInt(s).Some? ==> ParseInt(s).value in c
    ensures forall n :: n in c ==> exists s :: s in items && ParseInt(s) == Some(n)
  {
    set s | s in items && ParseInt(s).Some? :: ParseInt(s).value
  }

  lemma {:induction false} ChoicesOfSingleDigits(items: seq<string>, n: int)
    requires forall s :: s in items ==> |s| == 1 && IsDigit(s[0])
    ensures n in Choices(items) <==> exists s :: s in items && DigitValue(s[0]) == n
  {
    if n in Choices(items) {
      var s :| s in items && ParseInt(s).Some? && ParseInt(s).value == n;
      assert DigitValue(s[0]) == n;
    }
    if exists s :: s in items && DigitValue(s[0]) == n {
      var s :| s in items && DigitValue(s[0]) == n;
      assert ParseInt(s).value == n;
    }
  }

  /** The gender Select offers {1, 2}. */
  lemma GenderOptions()
    ensures Choices(GenderItems) == {1, 2}
  {
    forall n: int ensures n in Choices(GenderItems) <==> n in {1, 2} {
      ChoicesOfSingleDigits(GenderItems, n);
      assert GenderItems[0] in GenderItems && GenderItems[1] in GenderItems;
    }
  }

  /** The cholesterol and glucose Selects offer {1, 2, 3}. */
  lemma LevelOptions()
    ensures Choices(LevelItems) == {1, 2, 3}
  {
    forall n: int ensures n in Choices(LevelItems) <==> n in {1, 2, 3} {
      ChoicesOfSingleDigits(LevelItems, n);
      assert LevelItems[0] in LevelItems && LevelItems[1] in LevelItems && LevelItems[2] in LevelItems;
    }
  }

  /** The smoking, alcohol and activity RadioGroups offer {0, 1}. */
  lemma YesNoOptions()
    ensures Choices(YesNoItems) == {0, 1}
  {
    forall n: int ensures n in Choices(YesNoItems) <==> n in {0, 1} {
      ChoicesOfSingleDigits(YesNoItems, n);
      assert YesNoItems[0] in YesNoItems && YesNoItems[1] in YesNoItems;
    }
  }

  lemma OptionSets()
    ensures Choices(GenderItems) == {1, 2}
    ensures Choices(LevelItems) == {1, 2, 3}
    ensures Choices(YesNoItems) == {0, 1}
  {
    GenderOptions();
    LevelOptions();
    YesNoOptions();
  }

  /** Every default value is one of its widget's options. */
  lemma DefaultsAreOptions()
    ensures DefaultGender in Choices(GenderItems)
    ensures DefaultCholesterol in Choices(LevelItems) && DefaultGluc in Choices(LevelItems)
    ensures DefaultSmoke in Choices(YesNoItems) && DefaultAlco in Choices(YesNoItems)
    ensures DefaultActive in Choices(YesNoItems)
  {
    OptionSets();
  }

  /** x is a number the widget with these items can produce. */
  predicate Chosen(x: real, items: seq<string>) {
    IsInteger(x) && x.Floor in Choices(items)
  }

  /** The numbers the gender Select produces. */
  lemma GenderChosen(x: real)
    ensures Chosen(x, GenderItems) <==> x == 1.0 || x == 2.0
  {
    GenderOptions();
    if IsInteger(x) {
      assert x == x.Floor as real;
    }
  }

  /** The numbers the cholesterol and glucose Selects produce. */
  lemma LevelChosen(x: real)
    ensures Chosen(x, LevelItems) <==> x == 1.0 || x == 2.0 || x == 3.0
  {
    LevelOptions();
    if IsInteger(x) {
      assert x == x.Floor as real;
    }
  }

  /** The numbers the smoking, alcohol and activity RadioGroups produce. */
  lemma YesNoChosen(x: real)
    ensures Chosen(x, YesNoItems) <==> x == 0.0 || x == 1.0
  {
    YesNoOptions();
    if IsInteger(x) {
      assert x == x.Floor as real;
    }
  }

  /** Every coded answer of r holds a value its widget can produce (a default or an item). */
  predicate FromWidgets(r: Record) {
    && Chosen(r.gender, GenderItems)
    && Chosen(r.cholesterol, LevelItems) && Chosen(r.gluc, LevelItems)
    && Chosen(r.smoke, YesNoItems) && Chosen(r.alco, YesNoItems) && Chosen(r.active, YesNoItems)
  }

  /** The widgets' values written out as numbers. */
  lemma FromWidgetsMeans(r: Record)
    ensures FromWidgets(r) <==>
      && (r.gender == 1.0 || r.gender == 2.0)
      && (r.cholesterol == 1.0 || r.cholesterol == 2.0 || r.cholesterol == 3.0)
      && (r.gluc == 1.0 || r.gluc == 2.0 || r.gluc == 3.0)
      && (r.smoke == 0.0 || r.smoke == 1.0)
      && (r.alco == 0.0 || r.alco == 1.0)
      && (r.active == 0.0 || r.active == 1.0)
  {
    GenderChosen(r.gender);
    LevelChosen(r.cholesterol);
    LevelChosen(r.gluc);
    YesNoChosen(r.smoke);
    YesNoChosen(r.alco);
    YesNoChosen(r.active);
  }
}
