/**
 * The profile-details form of `app/user_info.tsx`, shown after sign-up: a
 * height picked from a feet-and-inches table, a weight typed as decimal text,
 * sex, a fitness goal (`description`) and a name. Saving validates the form,
 * sends it to the backend and, on success, signs the user in through the
 * session store.
 */
module UserInfo {
  import opened Wrappers
  import opened Json
  import opened JsValues
  import opened Http
  import Session

  // ---------------------------------------------------------------------
  // Height options
  // ---------------------------------------------------------------------

  /** An entry of the height picker: its caption (the label) and its value in inches. */
  datatype HeightOption = HeightOption(caption: string, value: int)

  /** The label `f'i"`. */
  function HeightLabel(feet: int, inches: int): string {
    IntText(feet) + "'" + IntText(inches) + "\""
  }

  /** The option `f` feet `i` inches. */
  function Opt(f: int, i: int): HeightOption {
    HeightOption(HeightLabel(f, i), f * 12 + i)
  }

  /** The row for `f` feet: inches 0 to 11. */
  function Row(f: int): seq<HeightOption> {
    seq(12, i requires 0 <= i < 12 => Opt(f, i))
  }

  /** The first `n` options of the row for `f` feet. */
  function RowPrefix(f: int, n: nat): (row: seq<HeightOption>)
    ensures |row| == n && forall i :: 0 <= i < n ==> row[i] == Opt(f, i)
  {
    seq(n, i requires 0 <= i < n => Opt(f, i))
  }

  lemma RowPrefixStep(f: int, n: nat)
    ensures RowPrefix(f, n) + [Opt(f, n)] == RowPrefix(f, n + 1)
  {
    var p := RowPrefix(f, n);
    var a, b := p + [Opt(f, n)], RowPrefix(f, n + 1);
    assert |a| == |b|;
    forall i | 0 <= i < |a|
      ensures a[i] == b[i]
    {
      assert b[i] == Opt(f, i);
      if i < n {
        assert a[i] == p[i] == Opt(f, i);
      } else {
        assert a[i] == Opt(f, n);
      }
    }
  }

  /** The table `buildHeightOptions(minFeet, maxFeet)` produces: the rows in order of feet. */
  function HeightOptions(minFeet: int, maxFeet: int): (opts: seq<HeightOption>)
    ensures |opts| == if maxFeet < minFeet then 0 else 12 * (maxFeet - minFeet + 1)
    decreases maxFeet - minFeet
  {
    if maxFeet < minFeet then [] else HeightOptions(minFeet, maxFeet - 1) + Row(maxFeet)
  }

  /** `buildHeightOptions`: feet in the outer loop, inches 0 to 11 in the inner one (`BuildRow`). */
  method BuildHeightOptions(minFeet: int, maxFeet: int) returns (opts: seq<HeightOption>)
    ensures opts == HeightOptions(minFeet, maxFeet)
  {
    opts := [];
    var f := minFeet;
    while f <= maxFeet
      invariant minFeet <= f <= if maxFeet < minFeet then minFeet else maxFeet + 1
      invariant opts == HeightOptions(minFeet, f - 1)
      decreases maxFeet - f
    {
      var row := BuildRow(f);
      opts := opts + row;
      f := f + 1;
    }
  }

  /** The inner loop of `buildHeightOptions`: the twelve options of the row for `f` feet, by inches. */
  method BuildRow(f: int) returns (row: seq<HeightOption>)
    ensures row == Row(f)
  {
    row := [];
    var i := 0;
    while i <= 11
      invariant 0 <= i <= 12
      invariant row == RowPrefix(f, i)
    {
      var option := HeightOption(HeightLabel(f, i), f * 12 + i);
      RowPrefixStep(f, i);
      row := row + [option];
      i := i + 1;
    }
    assert forall k :: 0 <= k < 12 ==> row[k] == Row(f)[k];
  }

  /** The form's table, 4'0" to 7'11", has 48 entries, from 48 to 95 inches. */
  lemma FormTable()
    ensures |HeightOptions(4, 7)| == 48
    ensures HeightOptions(4, 7)[0].value == 48 && HeightOptions(4, 7)[47].value == 95
  {
    OptionValues(4, 7, 0);
    OptionValues(4, 7, 47);
  }

  /**
   * The values run through consecutive inches from `minFeet * 12` to
   * `maxFeet * 12 + 11`, and each label names the feet and inches of its value.
   */
  lemma {:induction false} OptionValues(minFeet: int, maxFeet: int, k: nat)
    requires k < |HeightOptions(minFeet, maxFeet)|
    ensures HeightOptions(minFeet, maxFeet)[k].value == minFeet * 12 + k
    ensures exists f, i :: minFeet <= f <= maxFeet && 0 <= i <= 11 && HeightOptions(minFeet, maxFeet)[k] == Opt(f, i)
    decreases maxFeet - minFeet
  {
    var prefix := HeightOptions(minFeet, maxFeet - 1);
    if k < |prefix| {
      OptionValues(minFeet, maxFeet - 1, k);
    } else {
      var i := k - |prefix|;
      assert HeightOptions(minFeet, maxFeet)[k] == Opt(maxFeet, i);
    }
  }

  // ---------------------------------------------------------------------
  // Weight
  // ---------------------------------------------------------------------

  /** The characters the weight field keeps: decimal digits and `.`. */
  predicate WeightChar(c: char) {
    IsDigit(c) || c == '.'
  }

  /** `t.replace(/[^0-9.]/g, "")`. */
  function FilterWeight(t: string): (r: string)
    ensures forall i :: 0 <= i < |r| ==> WeightChar(r[i])
    ensures forall c :: multiset(r)[c] == if WeightChar(c) then multiset(t)[c] else 0
  {
    if t == [] then []
    else
      var rest := FilterWeight(t[1..]);
      assert t == [t[0]] + t[1..];
      if WeightChar(t[0]) then [t[0]] + rest else rest
  }

  /** The filter deletes characters and never reorders the ones it keeps. */
  lemma {:induction false} FilterWeightConcat(a: string, b: string)
    ensures FilterWeight(a + b) == FilterWeight(a) + FilterWeight(b)
    decreases |a|
  {
    if a == [] {
      assert a + b == b;
    } else {
      assert (a + b)[1..] == a[1..] + b;
      FilterWeightConcat(a[1..], b);
    }
  }

  /** Text made only of digits and dots passes the filter unchanged. */
  lemma {:induction false} FilterWeightKeeps(t: string)
    requires forall i :: 0 <= i < |t| ==> WeightChar(t[i])
    ensures FilterWeight(t) == t
    decreases |t|
  {
    if t != [] {
      FilterWeightKeeps(t[1..]);
    }
  }

  /** Filtering twice is filtering once. */
  lemma FilterWeightIdempotent(t: string)
    ensures FilterWeight(FilterWeight(t)) == FilterWeight(t)
  {
    FilterWeightKeeps(FilterWeight(t));
  }

  /**
   * A number read by `parseFloat` from text of digits and dots: its whole
   * part and the digits after the point, or `NaN` when no digit comes first.
   */
  datatype Float = Decimal(whole: nat, fraction: string) | FloatNaN

  /**
   * `parseFloat(s)` for the text the weight field holds: the longest prefix
   * of the form digits, optionally a point and more digits.
   */
  function ParseFloat(s: string): (r: Float)
    ensures r.Decimal? ==> AllDigits(r.fraction)
  {
    var k := DigitRun(s);
    if k < |s| && s[k] == '.' then
      var m := DigitRun(s[k + 1..]);
      if k == 0 && m == 0 then FloatNaN
      else Decimal(DigitsValue(s[..k]), s[k + 1..][..m])
    else if k == 0 then FloatNaN
    else Decimal(DigitsValue(s[..k]), "")
  }

  /** `w > 0` for a parsed weight; `NaN` is not. */
  predicate Positive(w: Float) {
    w.Decimal? && (w.whole > 0 || exists i :: 0 <= i < |w.fraction| && w.fraction[i] != '0')
  }

  /** The weight as it is sent and stored: its whole part, or `null` for `NaN`. */
  function WeightJson(w: Float): Json {
    if w.Decimal? then JNum(w.whole) else JNull
  }

  /** A whole number typed as its digits reads back as itself. */
  lemma ParseFloatOfWhole(n: nat)
    ensures ParseFloat(NatText(n)) == Decimal(n, "")
    ensures Positive(ParseFloat(NatText(n))) <==> n > 0
  {
    DigitRunOf(NatText(n), "");
    assert NatText(n) + "" == NatText(n);
    assert NatText(n)[..|NatText(n)|] == NatText(n);
    NatTextValue(n);
  }

  // ---------------------------------------------------------------------
  // Validation
  // ---------------------------------------------------------------------

  const HeightMessage: string := "Please select a valid height."
  const WeightMessage: string := "Please enter a valid weight."
  const SexMessage: string := "Please select male or female."
  const GoalMessage: string := "Please pick a fitness goal."

  /**
   * The message of the first check `onSaveInfo` fails: height, then weight,
   * then sex, then goal; `None` when the form passes all four.
   */
  function SaveInfoError(height: int, weight: string, sex: string, description: string): (r: Option<string>)
    ensures r == Some(HeightMessage) <==> height <= 0
    ensures r == Some(WeightMessage) <==> height > 0 && !Positive(ParseFloat(weight))
    ensures r == Some(SexMessage) <==> height > 0 && Positive(ParseFloat(weight)) && sex == ""
    ensures r == Some(GoalMessage) <==>
      height > 0 && Positive(ParseFloat(weight)) && sex != "" && description == ""
    ensures r == None <==> height > 0 && Positive(ParseFloat(weight)) && sex != "" && description != ""
  {
    if height <= 0 then Some(HeightMessage)
    else if !Positive(ParseFloat(weight)) then Some(WeightMessage)
    else if sex == "" then Some(SexMessage)
    else if description == "" then Some(GoalMessage)
    else None
  }

  /**
   * `isValid`, which enables the Save button. A form that enables it also
   * passes every check of `onSaveInfo`.
   */
  predicate IsValid(height: int, weight: string, sex: string, description: string, isSubmitting: bool): (b: bool)
    ensures b ==> SaveInfoError(height, weight, sex, description) == None && !isSubmitting
  {
    height > 0 && Trim(weight) != "" && Positive(ParseFloat(weight)) &&
    (sex == "male" || sex == "female") && description != "" && !isSubmitting
  }

  /** The converse fails: `onSaveInfo` takes any non-empty sex, which the button does not. */
  lemma IsValidIsStricter()
    ensures SaveInfoError(66, "150", "other", "lose_weight") == None
    ensures !IsValid(66, "150", "other", "lose_weight", false)
  {
    assert ParseFloat("150") == Decimal(150, "") by {
      ParseFloatOfWhole(150);
      assert NatText(1) == "1";
      assert NatText(15) == NatText(1) + "5";
      assert NatText(150) == NatText(15) + "0" == "150";
    }
  }

  // ---------------------------------------------------------------------
  // Saving
  // ---------------------------------------------------------------------

  /** `String(username ?? "")`. */
  function UsernameText(p: RouteParam): string {
    if p.Absent? then "" else ParamText(p)
  }

  /** The request body: `id`, `height`, `weight`, `sex`, `description`, `name`. */
  function SignupBody(id: RouteParam, height: int, w: Float, sex: string, description: string, name: string): (j: Json)
    ensures j.JObj? && Lookup(j.members, "id") == Some(JStr(ParamText(id)))
    ensures Lookup(j.members, "height") == Some(JNum(height)) && Lookup(j.members, "weight") == Some(WeightJson(w))
    ensures Lookup(j.members, "sex") == Some(JStr(sex))
  {
    var ms := [Member("id", JStr(ParamText(id))), Member("height", JNum(height)), Member("weight", WeightJson(w)),
               Member("sex", JStr(sex)), Member("description", JStr(description)), Member("name", JStr(name))];
    LookupAt(ms, 0);
    LookupAt(ms, 1);
    LookupAt(ms, 2);
    LookupAt(ms, 3);
    JObj([Member("id", JStr(ParamText(id))), Member("height", JNum(height)), Member("weight", WeightJson(w)),
          Member("sex", JStr(sex)), Member("description", JStr(description)), Member("name", JStr(name))])
  }

  /** The user handed to the session store after a successful save. */
  function SavedUser(id: RouteParam, username: RouteParam, height: int, w: Float, sex: string,
                     description: string, name: string): (u: Json)
    ensures u.JObj? && Lookup(u.members, "height") == Some(JNum(height))
    ensures Lookup(u.members, "weight") == Some(WeightJson(w)) && Lookup(u.members, "sex") == Some(JStr(sex))
  {
    var ms := [Member("id", JStr(ParamText(id))), Member("username", JStr(UsernameText(username))),
               Member("height", JNum(height)), Member("weight", WeightJson(w)), Member("sex", JStr(sex)),
               Member("description", JStr(description)), Member("name", JStr(name))];
    LookupAt(ms, 2);
    LookupAt(ms, 3);
    LookupAt(ms, 4);
    JObj([Member("id", JStr(ParamText(id))), Member("username", JStr(UsernameText(username))),
          Member("height", JNum(height)), Member("weight", WeightJson(w)), Member("sex", JStr(sex)),
          Member("description", JStr(description)), Member("name", JStr(name))])
  }

  /** The saved user's `id` reads as `String(id)`, which is never `null`: the session store persists it. */
  lemma SavedUserId(id: RouteParam, username: RouteParam, height: int, w: Float, sex: string,
                    description: string, name: string)
    ensures var u := SavedUser(id, username, height, w, sex, description, name);
      Lookup(u.members, "id") == Some(JStr(ParamText(id))) && Session.HasId(u)
  {
    var ms := SavedUser(id, username, height, w, sex, description, name).members;
    assert [ms[0]] + ms[1..] == ms;
    LookupFirst(ms[0], ms[1..]);
  }

  /** The saved user's `username` is the empty string when the route carries none. */
  lemma SavedUserUsername(id: RouteParam, height: int, w: Float, sex: string, description: string, name: string)
    ensures Lookup(SavedUser(id, Absent, height, w, sex, description, name).members, "username") == Some(JStr(""))
  {
    var ms := SavedUser(id, Absent, height, w, sex, description, name).members;
    assert ms[..2] + ms[2..] == ms;
    LookupSkip(ms[..2], ms[2..], "username");
    assert ms[..2] == [ms[0]] + [ms[1]];
    LookupOwn([ms[0]], ms[1]);
  }

  /** What a save attempt that reached the server shows, and whether it signs the user in. */
  function SaveOutcome(reply: Reply): (r: (string, bool))
    ensures r.1 <==> IsOk(reply)
    ensures reply.NetworkFailure? ==> r.0 == reply.message
    ensures reply.Response? && !IsOk(reply) ==> r.0 == ServerMessage(ResponseData(reply), "User info failed to save")
  {
    match reply
    case NetworkFailure(m) => (m, false)
    case Response(_, _) =>
      if !IsOk(reply) then (ServerMessage(ResponseData(reply), "User info failed to save"), false)
      else ("User info saved", true)
  }

  class UserInfoScreen {
    const id: RouteParam
    const username: RouteParam
    var heightInInches: int
    var weight: string
    var sex: string
    var description: string
    var name: string
    var serverMessage: string
    var isSubmitting: bool
    const auth: Session.AuthProvider

    /** The weight field only ever holds what its filter lets through. */
    predicate Valid()
      reads this
    {
      forall i :: 0 <= i < |weight| ==> WeightChar(weight[i])
    }

    /** The first render: 5'6", everything else empty. */
    constructor (id: RouteParam, username: RouteParam, auth: Session.AuthProvider)
      ensures Valid()
      ensures this.id == id && this.username == username && this.auth == auth
      ensures heightInInches == 66 && weight == "" && sex == "" && description == "" && name == ""
      ensures serverMessage == "" && !isSubmitting
    {
      this.id := id;
      this.username := username;
      this.auth := auth;
      heightInInches := 66;
      weight := "";
      sex := "";
      description := "";
      name := "";
      serverMessage := "";
      isSubmitting := false;
    }

    /** Typing into the weight field. */
    method ChangeWeight(t: string)
      modifies this
      ensures Valid()
      ensures weight == FilterWeight(t)
      ensures heightInInches == old(heightInInches) && sex == old(sex) && description == old(description)
      ensures name == old(name) && serverMessage == old(serverMessage) && isSubmitting == old(isSubmitting)
    {
      weight := FilterWeight(t);
    }

    /**
     * `onSaveInfo`: the first failed check sets its message and sends
     * nothing; a save in progress sends nothing; otherwise the form is sent
     * (`sent`), the reply's message shown, the user signed in on success, and
     * `isSubmitting` is false again on every path.
     */
    method OnSaveInfo(reply: Reply) returns (sent: Option<Json>)
      requires Valid()
      modifies this, auth, auth.secure
      ensures Valid()
      ensures heightInInches == old(heightInInches) && weight == old(weight) && sex == old(sex)
      ensures description == old(description) && name == old(name)
      ensures SaveInfoError(heightInInches, weight, sex, description).Some? ==>
        serverMessage == SaveInfoError(heightInInches, weight, sex, description).value && sent == None &&
        isSubmitting == old(isSubmitting)
      ensures SaveInfoError(heightInInches, weight, sex, description).None? && old(isSubmitting) ==>
        serverMessage == "" && sent == None && isSubmitting
      ensures SaveInfoError(heightInInches, weight, sex, description).None? && !old(isSubmitting) ==>
        sent == Some(SignupBody(id, heightInInches, ParseFloat(weight), sex, description, name)) &&
        serverMessage == SaveOutcome(reply).0 && !isSubmitting
      ensures sent.Some? && SaveOutcome(reply).1 ==>
        var u := SavedUser(id, username, heightInInches, ParseFloat(weight), sex, description, name);
        auth.user == u && auth.secure.entries == Session.PersistUser(old(auth.secure.entries), u)
      ensures !(sent.Some? && SaveOutcome(reply).1) ==>
        auth.user == old(auth.user) && auth.secure.entries == old(auth.secure.entries)
      ensures auth.isReady == old(auth.isReady)
    {
      serverMessage := "";
      var w := ParseFloat(weight);
      if heightInInches <= 0 {
        serverMessage := HeightMessage;
        return None;
      }
      if !Positive(w) {
        serverMessage := WeightMessage;
        return None;
      }
      if sex == "" {
        serverMessage := SexMessage;
        return None;
      }
      if description == "" {
        serverMessage := GoalMessage;
        return None;
      }
      if isSubmitting {
        return None;
      }
      isSubmitting := true;
      sent := Some(SignupBody(id, heightInInches, w, sex, description, name));
      if reply.NetworkFailure? {
        serverMessage := reply.message;
      } else {
        var data := ResponseData(reply);
        if !IsOk(reply) {
          serverMessage := ServerMessage(data, "User info failed to save");
        } else {
          serverMessage := "User info saved";
          var user := SavedUser(id, username, heightInInches, w, sex, description, name);
          auth.SetUser(user);
        }
      }
      isSubmitting := false;
    }
  }
}
