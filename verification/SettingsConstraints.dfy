/** Which settings Home Assistant may write, and the values they may take. */
module SettingsConstraints {
  import opened Options
  import opened TwinState

  /** A Python float with the text Python prints for it; infinities and NaN are not finite. */
  datatype Float = Finite(r: real, repr: string) | NonFinite(repr: string) {
    predicate IsInteger() {
      Finite? && r.Floor as real == r
    }
  }

  /**
   A value as it arrives. A text comes stripped and in lower case, with what
   float() makes of it.
   */
  datatype Payload = Flag(b: bool) | Number(f: Float) | Text(word: string, parsed: Option<Float>) | Other

  datatype SettingConstraint = SettingConstraint(minValue: int, maxValue: int, integerOnly: bool)

  datatype Reason = NotNumeric | NotInteger | BelowMin | AboveMax

  datatype Verdict = Accepted(value: Value) | Refused(reason: Reason)

  function Whitelist(table: string): set<string> {
    match table
    case "proxy_control" => {"PROXY_MODE"}
    case "tbl_batt_prms" => {"FMT_ON", "BAT_MIN", "BAT_GL_MIN", "BAT_AG_MIN"}
    case "tbl_boiler_prms" => {
      "ISON", "MANUAL", "SSR0", "SSR1", "SSR2", "PRRTY", "P_SET", "WD",
      "ZONE1_S", "ZONE1_E", "ZONE2_S", "ZONE2_E", "ZONE3_S", "ZONE3_E", "ZONE4_S", "ZONE4_E"
    }
    case "tbl_box_prms" => {"MODE", "BAT_AC", "BAT_FORMAT", "SA", "RQRESET"}
    case "tbl_invertor_prm1" => {"BUZ_MUT", "GEN_AC_SRC"}
    case _ => {}
  }

  function Range(lo: int, hi: int): Option<SettingConstraint> {
    Some(SettingConstraint(lo, hi, true))
  }

  function Constraint(table: string, key: string): Option<SettingConstraint> {
    match table
    case "proxy_control" => if key == "PROXY_MODE" then Range(0, 2) else None
    case "tbl_batt_prms" =>
      if key == "FMT_ON" then Range(0, 1)
      else if key == "BAT_MIN" then Range(20, 100)
      else if key in {"BAT_GL_MIN", "BAT_AG_MIN"} then Range(0, 100)
      else None
    case "tbl_box_prms" =>
      if key == "MODE" then Range(0, 5)
      else if key == "BAT_AC" then Range(0, 100)
      else if key in {"BAT_FORMAT", "SA", "RQRESET"} then Range(0, 1)
      else None
    case "tbl_boiler_prms" =>
      if key in {"ISON", "MANUAL", "SSR0", "SSR1", "SSR2"} then Range(0, 1)
      else if key == "PRRTY" then Range(0, 2)
      else if key == "P_SET" then Range(0, 10000)
      else if key == "WD" then Range(0, 500000)
      else if key in {"ZONE1_S", "ZONE1_E", "ZONE2_S", "ZONE2_E", "ZONE3_S", "ZONE3_E", "ZONE4_S", "ZONE4_E"} then
        Range(0, 86399)
      else None
    case "tbl_invertor_prm1" => if key in {"BUZ_MUT", "GEN_AC_SRC"} then Range(0, 1) else None
    case _ => None
  }

  predicate IsSettingAllowed(table: string, key: string) {
    key in Whitelist(table)
  }

  function ParseNumeric(p: Payload): Option<Float> {
    match p
    case Flag(b) => Some(if b then Finite(1.0, "1.0") else Finite(0.0, "0.0"))
    case Number(f) => Some(f)
    case Text(word, parsed) =>
      if word == "" then None
      else if word in {"on", "true"} then Some(Finite(1.0, "1.0"))
      else if word in {"off", "false"} then Some(Finite(0.0, "0.0"))
      else parsed
    case Other => None
  }

  function AsValue(f: Float): Value {
    if f.IsInteger() then IntValue(f.r.Floor) else FloatValue(f.repr)
  }

  function Validate(table: string, key: string, p: Payload): Verdict {
    match ParseNumeric(p)
    case None => Refused(NotNumeric)
    case Some(f) =>
      match Constraint(table, key)
      case None => Accepted(AsValue(f))
      case Some(c) =>
        if c.integerOnly && !f.IsInteger() then Refused(NotInteger)
        else if f.Finite? && f.r < c.minValue as real then Refused(BelowMin)
        else if f.Finite? && f.r > c.maxValue as real then Refused(AboveMax)
        else Accepted(AsValue(f))
  }

  /** A whitelisted table and key with an integer inside the range of that key. */
  predicate Permitted(table: string, key: string, value: Value) {
    && IsSettingAllowed(table, key)
    && Constraint(table, key).Some?
    && value.IntValue?
    && Constraint(table, key).value.minValue <= value.n <= Constraint(table, key).value.maxValue
  }

  /** The two tables list the same keys, so nothing is written without a range. */
  lemma WhitelistHasRanges(table: string, key: string)
    ensures IsSettingAllowed(table, key) <==> Constraint(table, key).Some?
    ensures IsSettingAllowed(table, key) ==>
              Constraint(table, key).value.integerOnly
              && Constraint(table, key).value.minValue < Constraint(table, key).value.maxValue
  {
  }

  /**
   For a whitelisted key, validation accepts exactly the payloads that read as
   an integer within the range, and hands on that very integer.
   */
  lemma ValidateExactly(table: string, key: string, p: Payload)
    requires IsSettingAllowed(table, key)
    ensures Validate(table, key, p).Accepted? <==>
              exists n: int :: Permitted(table, key, IntValue(n))
                && ParseNumeric(p).Some? && ParseNumeric(p).value.Finite? && ParseNumeric(p).value.r == n as real
    ensures Validate(table, key, p).Accepted? ==>
              Permitted(table, key, Validate(table, key, p).value)
              && ParseNumeric(p).value.r == Validate(table, key, p).value.n as real
  {
    WhitelistHasRanges(table, key);
    if Validate(table, key, p).Accepted? {
      var n := ParseNumeric(p).value.r.Floor;
      assert Permitted(table, key, IntValue(n)) && ParseNumeric(p).value.r == n as real;
    }
  }

  /** Words and flags for on and off read as 1 and 0, any other text as float() reads it, and the rest not at all. */
  lemma WordsAreNumbers(table: string, key: string, word: string, parsed: Option<Float>)
    ensures var one, zero := Number(Finite(1.0, "1.0")), Number(Finite(0.0, "0.0"));
            && Validate(table, key, Flag(true)) == Validate(table, key, one)
            && Validate(table, key, Flag(false)) == Validate(table, key, zero)
            && Validate(table, key, Other) == Refused(NotNumeric)
            && Validate(table, key, Text(word, parsed))
               == if word == "on" || word == "true" then Validate(table, key, one)
                  else if word == "off" || word == "false" then Validate(table, key, zero)
                  else if word == "" || parsed.None? then Refused(NotNumeric)
                  else Validate(table, key, Number(parsed.value))
  {
  }

  /** A switch takes on and off as 1 and 0. */
  lemma SwitchTakesWords(table: string, key: string, parsed: Option<Float>)
    requires Constraint(table, key).Some? && Constraint(table, key).value.minValue == 0
    ensures Validate(table, key, Text("on", parsed)) == Accepted(IntValue(1))
    ensures Validate(table, key, Text("true", parsed)) == Accepted(IntValue(1))
    ensures Validate(table, key, Text("off", parsed)) == Accepted(IntValue(0))
    ensures Validate(table, key, Text("false", parsed)) == Accepted(IntValue(0))
  {
    WordsAreNumbers(table, key, "on", parsed);
    WordsAreNumbers(table, key, "true", parsed);
    WordsAreNumbers(table, key, "off", parsed);
    WordsAreNumbers(table, key, "false", parsed);
    WhitelistHasRanges(table, key);
  }
}
