/** The register page's password-strength bar: one point per criterion the
    password meets, and the bar's class and hint for each score. */
module PasswordStrength {

  predicate IsUpper(c: char) { 'A' <= c <= 'Z' }
  predicate IsLower(c: char) { 'a' <= c <= 'z' }
  predicate IsDigit(c: char) { '0' <= c <= '9' }

  /** A character of `[^A-Za-z0-9]`. */
  predicate IsOther(c: char) { !IsUpper(c) && !IsLower(c) && !IsDigit(c) }

  /** The five criteria, each worth one point. */
  datatype Criterion = LongEnough | HasUpper | HasLower | HasDigit | HasOther

  const Criteria: seq<Criterion> := [LongEnough, HasUpper, HasLower, HasDigit, HasOther]

  predicate Meets(pw: string, c: Criterion)
  {
    match c
    case LongEnough => |pw| >= 8
    case HasUpper => exists i :: 0 <= i < |pw| && IsUpper(pw[i])
    case HasLower => exists i :: 0 <= i < |pw| && IsLower(pw[i])
    case HasDigit => exists i :: 0 <= i < |pw| && IsDigit(pw[i])
    case HasOther => exists i :: 0 <= i < |pw| && IsOther(pw[i])
  }

  /** How many of `cs` the password meets. */
  function CountMet(pw: string, cs: seq<Criterion>): (n: nat)
    ensures n <= |cs|
    ensures n == 0 <==> forall i :: 0 <= i < |cs| ==> !Meets(pw, cs[i])
  {
    if cs == [] then 0
    else
      var rest := CountMet(pw, cs[1..]);
      assert forall i :: 1 <= i < |cs| ==> cs[i] == cs[1..][i - 1];
      (if Meets(pw, cs[0]) then 1 else 0) + rest
  }

  /** The strength score. */
  function Score(pw: string): (n: nat)
    ensures n <= 5
  {
    CountMet(pw, Criteria)
  }

  /** One criterion's point. */
  function Point(pw: string, c: Criterion): nat
  {
    if Meets(pw, c) then 1 else 0
  }

  /** The score is the sum of the five criteria's points. */
  lemma ScoreIsSumOfPoints(pw: string)
    ensures Score(pw) == Point(pw, LongEnough) + Point(pw, HasUpper) + Point(pw, HasLower)
                         + Point(pw, HasDigit) + Point(pw, HasOther)
  {
    var cs := Criteria;
    CountMetStep(pw, cs);
    assert cs[1..] == [HasUpper, HasLower, HasDigit, HasOther];
    CountMetStep(pw, cs[1..]);
    assert cs[1..][1..] == [HasLower, HasDigit, HasOther];
    CountMetStep(pw, cs[1..][1..]);
    assert cs[1..][1..][1..] == [HasDigit, HasOther];
    CountMetStep(pw, cs[1..][1..][1..]);
    assert cs[1..][1..][1..][1..] == [HasOther];
    CountMetStep(pw, cs[1..][1..][1..][1..]);
    assert cs[1..][1..][1..][1..][1..] == [];
  }

  lemma CountMetStep(pw: string, cs: seq<Criterion>)
    requires cs != []
    ensures CountMet(pw, cs) == Point(pw, cs[0]) + CountMet(pw, cs[1..])
  {
  }

  /** The empty password meets no criterion. */
  lemma EmptyScoresZero()
    ensures Score("") == 0
  {
    assert forall i :: 0 <= i < |Criteria| ==> !Meets("", Criteria[i]);
  }

  /** A criterion met stays met when a character is appended. */
  lemma MeetsAfterAppend(pw: string, ch: char, c: Criterion)
    requires Meets(pw, c)
    ensures Meets(pw + [ch], c)
  {
    var ext := pw + [ch];
    match c
    case LongEnough =>
    case HasUpper =>
      var i :| 0 <= i < |pw| && IsUpper(pw[i]);
      assert ext[i] == pw[i];
    case HasLower =>
      var i :| 0 <= i < |pw| && IsLower(pw[i]);
      assert ext[i] == pw[i];
    case HasDigit =>
      var i :| 0 <= i < |pw| && IsDigit(pw[i]);
      assert ext[i] == pw[i];
    case HasOther =>
      var i :| 0 <= i < |pw| && IsOther(pw[i]);
      assert ext[i] == pw[i];
  }

  lemma {:induction false} CountMetAfterAppend(pw: string, ch: char, cs: seq<Criterion>)
    ensures CountMet(pw, cs) <= CountMet(pw + [ch], cs)
  {
    if cs != [] {
      CountMetAfterAppend(pw, ch, cs[1..]);
      if Meets(pw, cs[0]) {
        MeetsAfterAppend(pw, ch, cs[0]);
      }
    }
  }

  /** Typing one more character never lowers the score. */
  lemma ScoreNeverDrops(pw: string, ch: char)
    ensures Score(pw) <= Score(pw + [ch])
  {
    CountMetAfterAppend(pw, ch, Criteria);
  }

  /** The `input` handler: the score counted by five independent tests, and
      the bar's class and hint chosen by a switch on it. */
  method OnPasswordInput(pw: string) returns (score: nat, strengthClass: string, hint: string)
    ensures score == Score(pw)
    ensures score == 0 ==> strengthClass == "strength-bar" && hint == ""
    ensures score == 1 || score == 2 ==> strengthClass == "strength-bar weak" && hint == "D\U{E9}bil"
    ensures score == 3 ==> strengthClass == "strength-bar medium" && hint == "Aceptable"
    ensures score == 4 ==> strengthClass == "strength-bar strong" && hint == "Fuerte"
    ensures score == 5 ==> strengthClass == "strength-bar very-strong" && hint == "Muy Fuerte"
  {
    score := 0;
    if |pw| >= 8 { score := score + 1; }
    if exists i :: 0 <= i < |pw| && IsUpper(pw[i]) { score := score + 1; }
    if exists i :: 0 <= i < |pw| && IsLower(pw[i]) { score := score + 1; }
    if exists i :: 0 <= i < |pw| && IsDigit(pw[i]) { score := score + 1; }
    if exists i :: 0 <= i < |pw| && IsOther(pw[i]) { score := score + 1; }
    ScoreIsSumOfPoints(pw);

    hint := "";
    strengthClass := "strength-bar";
    if score == 1 || score == 2 {
      strengthClass := strengthClass + " weak";
      hint := "D\U{E9}bil";
    } else if score == 3 {
      strengthClass := strengthClass + " medium";
      hint := "Aceptable";
    } else if score == 4 {
      strengthClass := strengthClass + " strong";
      hint := "Fuerte";
    } else if score == 5 {
      strengthClass := strengthClass + " very-strong";
      hint := "Muy Fuerte";
    }
  }
}
