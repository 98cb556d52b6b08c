/** Configuration loading (server/src/config/env.ts): the process environment
    is a map from variable name to value; a missing key is an unset variable. */
module Env {
  import opened Wrappers
  import opened Text

  type Vars = map<string, string>

  /** A JavaScript number as far as `Number(...)` and `Number.isFinite` tell
      them apart. A finite value that `Number` reads from decimal digits is
      an integer. */
  datatype JsNumber = Finite(value: int) | Infinite | NaN

  /** 2 to the power `k`. */
  function Pow2(k: nat): (p: nat)
    ensures p >= 1
  {
    if k == 0 then 1 else 2 * Pow2(k - 1)
  }

  lemma {:induction false} Pow2Add(a: nat, b: nat)
    ensures Pow2(a + b) == Pow2(a) * Pow2(b)
  {
    if a > 0 {
      Pow2Add(a - 1, b);
      assert Pow2(a + b) == 2 * Pow2(a - 1 + b);
    }
  }

  lemma {:induction false} Pow2Monotone(a: nat, b: nat)
    requires a <= b
    ensures Pow2(a) <= Pow2(b)
  {
    if a < b {
      Pow2Monotone(a, b - 1);
    }
  }

  /** The number of binary digits of `n`. */
  function BitLength(n: nat): (b: nat)
    ensures n == 0 <==> b == 0
    ensures n > 0 ==> Pow2(b - 1) <= n < Pow2(b)
  {
    if n == 0 then 0 else 1 + BitLength(n / 2)
  }

  /** The significand width of an IEEE 754 double. */
  const SignificandBits: nat := 53

  /** A value of at least 2^p has more than p binary digits. */
  lemma BitLengthAbove(n: nat, p: nat)
    requires n >= Pow2(p)
    ensures BitLength(n) > p
  {
    if BitLength(n) <= p {
      Pow2Monotone(BitLength(n), p);
    }
  }

  /** `c` shifted left by `k` bits: c * 2^k. */
  function Shl(c: nat, k: nat): nat
  {
    if k == 0 then c else 2 * Shl(c, k - 1)
  }

  /** `n` shifted right by `k` bits: the quotient of n by 2^k. */
  function Shr(n: nat, k: nat): nat
  {
    if k == 0 then n else Shr(n / 2, k - 1)
  }

  /** Shifting right rounds down: `n` lies in the block of 2^k values that
      starts at the shifted-back quotient. */
  lemma {:induction false} ShrFloor(n: nat, k: nat)
    ensures Shl(Shr(n, k), k) <= n < Shl(Shr(n, k), k) + Pow2(k)
  {
    if k > 0 {
      ShrFloor(n / 2, k - 1);
    }
  }

  lemma {:induction false} ShlSucc(c: nat, k: nat)
    ensures Shl(c + 1, k) == Shl(c, k) + Pow2(k)
  {
    if k > 0 {
      ShlSucc(c, k - 1);
    }
  }

  lemma {:induction false} ShlMonotone(a: nat, b: nat, k: nat)
    requires a <= b
    ensures Shl(a, k) <= Shl(b, k)
  {
    if k > 0 {
      ShlMonotone(a, b, k - 1);
    }
  }

  lemma {:induction false} ShrShl(c: nat, k: nat)
    ensures Shr(Shl(c, k), k) == c
  {
    if k > 0 {
      assert Shl(c, k) / 2 == Shl(c, k - 1);
      ShrShl(c, k - 1);
    }
  }

  lemma {:induction false} ShlPow2(a: nat, k: nat)
    ensures Shl(Pow2(a), k) == Pow2(a + k)
  {
    if k > 0 {
      ShlPow2(a, k - 1);
    }
  }

  /** `n` rounded to `p` significant bits, ties going to the even
      significand: below 2^p `n` is kept; above, its low `BitLength(n) - p`
      bits are rounded away. */
  function RoundToBits(n: nat, p: nat): nat
    requires p >= 1
  {
    if n < Pow2(p) then n
    else
      BitLengthAbove(n, p);
      var k := BitLength(n) - p;
      var q := Shr(n, k);
      var r := n - Shl(q, k);
      var half := Pow2(k - 1);
      Shl(if r > half || (r == half && q % 2 == 1) then q + 1 else q, k)
  }

  /** The nearest double to the integer `n`, as `Number` rounds the value of
      a decimal text (53 significant bits, ties to even). */
  function RoundToDouble(n: nat): nat
  {
    RoundToBits(n, SignificandBits)
  }

  /** Above 2^p, shifting out all but p bits leaves a p-bit significand. */
  lemma SignificandRange(n: nat, p: nat)
    requires p >= 1 && n >= Pow2(p)
    ensures BitLength(n) > p
    ensures Pow2(p - 1) <= Shr(n, BitLength(n) - p) < Pow2(p)
  {
    BitLengthAbove(n, p);
    var k := BitLength(n) - p;
    var q := Shr(n, k);
    ShrFloor(n, k);
    if q < Pow2(p - 1) {
      ShlSucc(q, k);
      ShlMonotone(q + 1, Pow2(p - 1), k);
      ShlPow2(p - 1, k);
    }
    if q >= Pow2(p) {
      ShlMonotone(Pow2(p), q, k);
      ShlPow2(p, k);
    }
  }

  /** Rounding away the low `k` bits of `n` to the nearest multiple of 2^k,
      ties to an even quotient. */
  lemma RoundBlock(n: nat, k: nat)
    requires k >= 1
    ensures var q := Shr(n, k);
            var r := n - Shl(q, k);
            var half := Pow2(k - 1);
            var c := if r > half || (r == half && q % 2 == 1) then q + 1 else q;
            var m := Shl(c, k);
            && Shr(m, k) == c && c <= q + 1
            && n - half <= m <= n + half
            && ((m - n == half || n - m == half) ==> c % 2 == 0)
  {
    var q := Shr(n, k);
    var half := Pow2(k - 1);
    assert Pow2(k) == 2 * half;
    ShrFloor(n, k);
    ShlSucc(q, k);
    var c := if n - Shl(q, k) > half || (n - Shl(q, k) == half && q % 2 == 1) then q + 1 else q;
    ShrShl(c, k);
  }

  /** Rounding to `p` bits gives the nearest integer with `p` significant
      bits: its significand (the value shifted right by the bits rounded
      away) has `p` bits, or is 2^p after rounding up; it is at most half a
      unit of the last place away, even on a tie, and never below the
      highest power of two at or under `n`. */
  lemma {:induction false} RoundToBitsNearest(n: nat, p: nat)
    requires p >= 1
    ensures n < Pow2(p) ==> RoundToBits(n, p) == n
    ensures n >= Pow2(p) ==> BitLength(n) > p
    ensures n >= Pow2(p) ==>
              var m := RoundToBits(n, p);
              var k := BitLength(n) - p;
              var half := Pow2(k - 1);
              && Shl(Shr(m, k), k) == m
              && Pow2(p - 1) <= Shr(m, k) <= Pow2(p)
              && n - half <= m <= n + half
              && ((m - n == half || n - m == half) ==> Shr(m, k) % 2 == 0)
              && Pow2(BitLength(n) - 1) <= m
  {
    if n >= Pow2(p) {
      SignificandRange(n, p);
      var k := BitLength(n) - p;
      RoundBlock(n, k);
      var m := RoundToBits(n, p);
      var c := Shr(m, k);
      ShlMonotone(Pow2(p - 1), c, k);
      ShlPow2(p - 1, k);
      assert p - 1 + k == BitLength(n) - 1;
    }
  }

  /** The same for doubles: below 2^53 every integer is exact, and above it
      the result is the nearest integer with 53 significant bits. */
  lemma RoundToDoubleNearest(n: nat)
    ensures n < Pow2(SignificandBits) ==> RoundToDouble(n) == n
    ensures n >= Pow2(SignificandBits) ==> BitLength(n) > SignificandBits
    ensures n >= Pow2(SignificandBits) ==>
              var m := RoundToDouble(n);
              var k := BitLength(n) - SignificandBits;
              var half := Pow2(k - 1);
              && Shl(Shr(m, k), k) == m
              && Pow2(SignificandBits - 1) <= Shr(m, k) <= Pow2(SignificandBits)
              && n - half <= m <= n + half
              && ((m - n == half || n - m == half) ==> Shr(m, k) % 2 == 0)
              && Pow2(BitLength(n) - 1) <= m
  {
    RoundToBitsNearest(n, SignificandBits);
  }

  /** The decimal value `n`, negated or not, as a JavaScript number: a value
      that rounds to 2^1024 or beyond is beyond `Number.MAX_VALUE` and reads
      as an infinity. */
  function DecimalNumber(n: nat, negative: bool): (r: JsNumber)
    ensures !r.NaN?
    ensures r.Finite? ==> 0 - Pow2(1024) < r.value < Pow2(1024) && (r.value < 0 ==> negative)
  {
    var m := RoundToDouble(n);
    if m >= Pow2(1024) then Infinite else Finite(if negative then 0 - m else m)
  }

  /** `Number(v)` for an environment value: `undefined` is NaN, a blank string
      is 0, an optionally signed run of decimal digits is its value rounded
      to a double, the spelled-out infinities are infinite, and anything
      else is NaN. */
  function ToNumber(v: Option<string>): (r: JsNumber)
    ensures v.None? ==> r.NaN?
    ensures r.Finite? ==> 0 - Pow2(1024) < r.value < Pow2(1024)
    ensures v.Some? && IsDigits(Trim(v.value)) ==> !r.NaN? && (r.Finite? ==> r.value >= 0)
  {
    match v
    case None => NaN
    case Some(s) =>
      var t := Trim(s);
      if t == [] then Finite(0)
      else if t == "Infinity" || t == "+Infinity" || t == "-Infinity" then Infinite
      else if IsDigits(t) then DecimalNumber(DigitsValue(t), false)
      else if t[0] == '+' && IsDigits(t[1..]) then DecimalNumber(DigitsValue(t[1..]), false)
      else if t[0] == '-' && IsDigits(t[1..]) then DecimalNumber(DigitsValue(t[1..]), true)
      else NaN
  }

  function Lookup(vars: Vars, key: string): Option<string>
  {
    if key in vars then Some(vars[key]) else None
  }

  /** `Number.isFinite(Number(process.env[key])) ? that : fallback`. */
  function NumberSetting(vars: Vars, key: string, fallback: int): (r: int)
    ensures r != fallback ==> key in vars && 0 - Pow2(1024) < r < Pow2(1024)
  {
    var n := ToNumber(Lookup(vars, key));
    if n.Finite? then n.value else fallback
  }

  /** `env.PORT`: 3000 unless `PORT` holds a finite number. */
  function Port(vars: Vars): (p: int)
    ensures "PORT" !in vars ==> p == 3000
    ensures p != 3000 ==> "PORT" in vars && ToNumber(Some(vars["PORT"])) == Finite(p)
  {
    NumberSetting(vars, "PORT", 3000)
  }

  /** `env.DB_POOL_SIZE`: 10 unless `DB_POOL_SIZE` holds a finite number. */
  function DbPoolSize(vars: Vars): (n: int)
    ensures "DB_POOL_SIZE" !in vars ==> n == 10
    ensures n != 10 ==> "DB_POOL_SIZE" in vars && ToNumber(Some(vars["DB_POOL_SIZE"])) == Finite(n)
  {
    NumberSetting(vars, "DB_POOL_SIZE", 10)
  }

  /** An unset numeric variable takes its default. */
  lemma NumberSettingUnset(vars: Vars, key: string, fallback: int)
    requires key !in vars
    ensures NumberSetting(vars, key, fallback) == fallback
  {
  }

  /** A variable holding the decimal text of `n` yields `n` rounded to a
      double, unless that reaches 2^1024 and the default applies. */
  lemma NumberSettingDecimal(vars: Vars, key: string, fallback: int, n: nat)
    requires key in vars && vars[key] == NatToDecimal(n)
    ensures RoundToDouble(n) < Pow2(1024) ==> NumberSetting(vars, key, fallback) == RoundToDouble(n)
    ensures RoundToDouble(n) >= Pow2(1024) ==> NumberSetting(vars, key, fallback) == fallback
  {
    var s := NatToDecimal(n);
    TrimUnchanged(s);
    DecimalRoundTrip(n);
    assert s[0] != 'I' && s[0] != '+' && s[0] != '-';
  }

  /** Below 2^53 the decimal text of `n` yields exactly `n`. */
  lemma NumberSettingSafeInteger(vars: Vars, key: string, fallback: int, n: nat)
    requires key in vars && vars[key] == NatToDecimal(n) && n < Pow2(SignificandBits)
    ensures NumberSetting(vars, key, fallback) == n
  {
    NumberSettingDecimal(vars, key, fallback, n);
    Pow2Monotone(SignificandBits, 1024);
  }

  /** The bit length is the one power-of-two bracket that holds `n`. */
  lemma BitLengthExact(n: nat, b: nat)
    requires b >= 1 && Pow2(b - 1) <= n < Pow2(b)
    ensures BitLength(n) == b
  {
    var c := BitLength(n);
    if c < b {
      Pow2Monotone(c, b - 1);
    } else if c > b {
      Pow2Monotone(b, c - 1);
    }
  }

  /** 2^p + 1 needs p + 1 significant bits: rounded to p bits it is a tie
      between 2^p and 2^p + 2, and goes to the even significand, 2^p. */
  lemma RoundsPastLastExact(p: nat)
    requires p >= 2
    ensures RoundToBits(Pow2(p) + 1, p) == Pow2(p)
  {
    var h := Pow2(p - 2);
    assert Pow2(p) == 4 * h;
    assert Pow2(p + 1) == 8 * h;
    RoundsOddTie(p, h);
  }

  /** With 2^p = 4h, the value 4h + 1 has p + 1 bits and is a tie at p bits
      between 4h and 4h + 2; it goes to the even significand, 4h. */
  lemma RoundsOddTie(p: nat, h: nat)
    requires p >= 1 && Pow2(p) == 4 * h && Pow2(p + 1) == 8 * h
    ensures RoundToBits(Pow2(p) + 1, p) == Pow2(p)
  {
    var n := 4 * h + 1;
    BitLengthExact(n, p + 1);
    var q := 2 * h;
    assert Shr(n, 1) == q;
    assert Shl(q, 1) == 4 * h;
  }

  /** 2^53 + 1 is the first integer a double cannot hold: its text yields
      2^53. */
  lemma NumberSettingRoundsAbove2To53(vars: Vars, key: string, fallback: int, n: nat)
    requires n == Pow2(SignificandBits) + 1
    requires key in vars && vars[key] == NatToDecimal(n)
    ensures NumberSetting(vars, key, fallback) == n - 1
  {
    RoundsPastLastExact(SignificandBits);
    Pow2Monotone(SignificandBits + 1, 1024);
    NumberSettingDecimal(vars, key, fallback, n);
  }

  /** A decimal value of 2^1024 or more is beyond `Number.MAX_VALUE`: it
      reads as Infinity, which is not finite, so the default applies. */
  lemma NumberSettingOverflow(vars: Vars, key: string, fallback: int, n: nat)
    requires key in vars && vars[key] == NatToDecimal(n) && n >= Pow2(1024)
    ensures NumberSetting(vars, key, fallback) == fallback
  {
    NumberSettingDecimal(vars, key, fallback, n);
    Pow2Monotone(SignificandBits, 1024);
    RoundToDoubleNearest(n);
    var b := BitLength(n);
    if b - 1 < 1024 {
      Pow2Monotone(b, 1024);
    }
    Pow2Monotone(1024, b - 1);
    Pow2Monotone(SignificandBits, 1024);
  }

  /** A variable set to the empty string is read as 0, not as the default:
      `Number("")` is 0, which is finite. */
  lemma NumberSettingEmpty(vars: Vars, key: string, fallback: int)
    requires key in vars && vars[key] == ""
    ensures NumberSetting(vars, key, fallback) == 0
  {
  }

  /** The characters a text `Number` reads as finite or infinite can hold
      once trimmed: digits, signs, the point, and letters (exponents,
      hexadecimal digits, base prefixes, "Infinity"). */
  predicate NumberChar(c: char)
  {
    ('0' <= c <= '9') || c == '+' || c == '-' || c == '.' || ('a' <= c <= 'z') || ('A' <= c <= 'Z')
  }

  /** A value whose trimmed text holds any other character (an inner space, a
      comma, an underscore, ...) is NaN, so the default applies. */
  lemma NumberSettingNotANumber(vars: Vars, key: string, fallback: int, i: nat)
    requires key in vars && i < |Trim(vars[key])| && !NumberChar(Trim(vars[key])[i])
    ensures NumberSetting(vars, key, fallback) == fallback
  {
    var t := Trim(vars[key]);
    assert t != "Infinity" && t != "+Infinity" && t != "-Infinity";
    assert !IsDigits(t);
    if i > 0 {
      assert t[1..][i - 1] == t[i];
    }
  }

  /** "Infinity", "+Infinity" and "-Infinity" are numbers but not finite ones:
      the default applies, so `PORT=Infinity` listens on 3000. */
  lemma NumberSettingInfinity(vars: Vars, key: string, fallback: int)
    requires key in vars && Trim(vars[key]) in ["Infinity", "+Infinity", "-Infinity"]
    ensures NumberSetting(vars, key, fallback) == fallback
    ensures key == "PORT" ==> Port(vars) == 3000
    ensures key == "DB_POOL_SIZE" ==> DbPoolSize(vars) == 10
  {
  }

  /** `process.env[key] || defaultValue`: an empty value counts as unset. */
  function Chosen(vars: Vars, key: string, default: Option<string>): Option<string>
  {
    if key in vars && vars[key] != "" then Some(vars[key]) else default
  }

  function MissingMessage(key: string): string
  {
    "Missing required environment variable: " + key
  }

  /** `requireEnv(key, defaultValue)`. */
  function RequireEnv(vars: Vars, key: string, default: Option<string>): (r: Result<string, Error>)
    ensures r.Success? <==> Chosen(vars, key, default).Some? && Trim(Chosen(vars, key, default).value) != ""
    ensures r.Success? ==> r.value == Chosen(vars, key, default).value
    ensures r.Failure? ==> r.error == Error(MissingMessage(key), None)
  {
    var value := Chosen(vars, key, default);
    if value.None? || Trim(value.value) == "" then Failure(Error(MissingMessage(key), None))
    else Success(value.value)
  }

  /** A variable with a non-blank value is returned as it is, untrimmed, and
      the default plays no part. */
  lemma RequireEnvKeepsValue(vars: Vars, key: string, default: Option<string>)
    requires key in vars && !AllSpace(vars[key])
    ensures RequireEnv(vars, key, default) == Success(vars[key])
  {
  }

  /** An empty variable falls back to the default, exactly as if unset. */
  lemma RequireEnvEmptyFallsBack(vars: Vars, key: string, default: string)
    requires key in vars && vars[key] == ""
    ensures RequireEnv(vars, key, Some(default)) == RequireEnv(vars - {key}, key, Some(default))
    ensures !AllSpace(default) ==> RequireEnv(vars, key, Some(default)) == Success(default)
  {
  }

  /** A whitespace-only variable is chosen over the default and then
      rejected, so it throws even when a usable default exists. */
  lemma RequireEnvBlankThrows(vars: Vars, key: string, default: Option<string>)
    requires key in vars && vars[key] != "" && AllSpace(vars[key])
    ensures RequireEnv(vars, key, default).Failure?
  {
  }

  /** With no default, an unset variable throws. */
  lemma RequireEnvUnsetThrows(vars: Vars, key: string)
    requires key !in vars
    ensures RequireEnv(vars, key, None) == Failure(Error(MissingMessage(key), None))
  {
  }

  /** The loaded `env` object. */
  datatype Config = Config(
    nodeEnv: string,
    port: int,
    databaseUrl: string,
    dbPoolSize: int,
    frontendUrl: string,
    redisUrl: string,
    jwtSecret: string,
    jwtRefreshSecret: string)

  /** The variables `env` requires, in the order the object literal evaluates them. */
  const Required: seq<string> := ["DATABASE_URL", "FRONTEND_URL", "REDIS_URL", "JWT_SECRET", "JWT_REFRESH_SECRET"]

  predicate Present(vars: Vars, key: string)
  {
    key in vars && !AllSpace(vars[key])
  }

  /** `process.env.NODE_ENV || 'development'`; the value is not checked
      against the three names the type declares. */
  function NodeEnv(vars: Vars): string
  {
    if "NODE_ENV" in vars && vars["NODE_ENV"] != "" then vars["NODE_ENV"] else "development"
  }

  /** Without a default, `requireEnv` succeeds exactly on a present, non-blank variable. */
  lemma RequireEnvNoDefault(vars: Vars, key: string)
    ensures RequireEnv(vars, key, None).Success? <==> Present(vars, key)
    ensures Present(vars, key) ==> RequireEnv(vars, key, None).value == vars[key]
  {
  }

  /** The first required variable, in evaluation order, that is missing or blank. */
  function FirstMissing(vars: Vars): Option<string>
  {
    if !Present(vars, "DATABASE_URL") then Some("DATABASE_URL")
    else if !Present(vars, "FRONTEND_URL") then Some("FRONTEND_URL")
    else if !Present(vars, "REDIS_URL") then Some("REDIS_URL")
    else if !Present(vars, "JWT_SECRET") then Some("JWT_SECRET")
    else if !Present(vars, "JWT_REFRESH_SECRET") then Some("JWT_REFRESH_SECRET")
    else None
  }

  /** FirstMissing names a missing variable every one of whose predecessors
      is present, and finds none exactly when all are present. */
  lemma FirstMissingIsFirst(vars: Vars) returns (i: nat)
    ensures FirstMissing(vars).None? <==> forall k | k in Required :: Present(vars, k)
    ensures FirstMissing(vars).Some? ==>
              i < |Required| && FirstMissing(vars).value == Required[i] && !Present(vars, Required[i])
              && forall j | 0 <= j < i :: Present(vars, Required[j])
  {
    i := if !Present(vars, Required[0]) then 0
         else if !Present(vars, Required[1]) then 1
         else if !Present(vars, Required[2]) then 2
         else if !Present(vars, Required[3]) then 3
         else 4;
  }

  /** Evaluating the `env` object literal: the first required variable that
      is missing or blank throws; otherwise every required value is kept as
      it is and the numeric settings take their defaults. */
  function LoadConfig(vars: Vars): (r: Result<Config, Error>)
    ensures r.Success? <==> FirstMissing(vars).None?
    ensures r.Failure? ==> r.error == Error(MissingMessage(FirstMissing(vars).value), None)
    ensures r.Success? ==>
              && "DATABASE_URL" in vars && "FRONTEND_URL" in vars && "REDIS_URL" in vars
              && "JWT_SECRET" in vars && "JWT_REFRESH_SECRET" in vars
              && r.value == Config(NodeEnv(vars), Port(vars), vars["DATABASE_URL"], DbPoolSize(vars),
                                   vars["FRONTEND_URL"], vars["REDIS_URL"], vars["JWT_SECRET"], vars["JWT_REFRESH_SECRET"])
  {
    RequireEnvNoDefault(vars, "DATABASE_URL");
    RequireEnvNoDefault(vars, "FRONTEND_URL");
    RequireEnvNoDefault(vars, "REDIS_URL");
    RequireEnvNoDefault(vars, "JWT_SECRET");
    RequireEnvNoDefault(vars, "JWT_REFRESH_SECRET");
    match RequireEnv(vars, "DATABASE_URL", None)
    case Failure(e) => Failure(e)
    case Success(databaseUrl) =>
      match RequireEnv(vars, "FRONTEND_URL", None)
      case Failure(e) => Failure(e)
      case Success(frontendUrl) =>
        match RequireEnv(vars, "REDIS_URL", None)
        case Failure(e) => Failure(e)
        case Success(redisUrl) =>
          match RequireEnv(vars, "JWT_SECRET", None)
          case Failure(e) => Failure(e)
          case Success(jwtSecret) =>
            match RequireEnv(vars, "JWT_REFRESH_SECRET", None)
            case Failure(e) => Failure(e)
            case Success(jwtRefreshSecret) =>
              Success(Config(NodeEnv(vars), Port(vars), databaseUrl, DbPoolSize(vars),
                             frontendUrl, redisUrl, jwtSecret, jwtRefreshSecret))
  }

  /** `NODE_ENV` defaults to "development" when unset or empty. */
  lemma NodeEnvDefault(vars: Vars)
    requires "NODE_ENV" !in vars || vars["NODE_ENV"] == ""
    ensures NodeEnv(vars) == "development"
  {
  }
}
