/**
 * The code the handlers call but that is not part of the model: the token
 * library, the password hasher, HMAC-SHA256, the payment gateway, the
 * schema library's e-mail check and date parsing, and the server's
 * configuration. Each library function is a field of `Env`, so nothing is
 * assumed about it beyond what a lemma states in its `requires`.
 */
module Externals {
  import opened Wrappers

  /** A token payload: claim name to string value. */
  type Claims = map<string, string>

  /** What the order route hands the gateway's `orders.create`. */
  datatype OrderOptions = OrderOptions(amount: int, currency: string, receipt: string)

  /** The currency of every order and payment; amounts are in paise. */
  const Rupees := "INR"

  datatype Env = Env(
    /** JWT_SECRET; the empty string stands for an unset variable (both are falsy). */
    jwtSecret: string,
    /** `sign(claims, secret, {expiresIn})`, with the lifetime in seconds. */
    jwtSign: (Claims, string, int) -> string,
    /** `verify(token, secret)`: the payload, or None where it throws. */
    jwtVerify: (string, string) -> Option<Claims>,
    /** bcrypt `hash(password, 10)`. */
    bcryptHash: string -> string,
    /** bcrypt `compare(password, hash)`. */
    bcryptCompare: (string, string) -> bool,
    /** The schema library's e-mail format check. */
    isEmail: string -> bool,
    /** `new Date(text)` as a timestamp, or None for an Invalid Date. */
    parseDate: string -> Option<int>,
    /**
     * RAZORPAY_KEY_ID, returned to the client as `keyId`; the empty string
     * stands for an unset variable, and the gateway client refuses both.
     */
    razorpayKeyId: string,
    /** RAZORPAY_KEY_SECRET, the HMAC key. */
    razorpayKeySecret: Option<string>,
    /** `createHmac("sha256", key).update(message).digest("hex")`. */
    hmacSha256Hex: (string, string) -> string,
    /** The gateway's `orders.create`: the order id, or None where the call fails. */
    createOrder: OrderOptions -> Option<string>,
    /** `String(n)` for a JSON number. */
    numberText: real -> string)

  /** Lifetime of a login token: "1h". */
  const OneHour := 3600
  /** Lifetime of a signup token: "7d". */
  const SevenDays := 7 * 24 * 3600

  /** `sign(claims, JWT_SECRET, {expiresIn: ttl})`: it throws when the secret is unset. */
  function Sign(env: Env, claims: Claims, ttl: int): (token: Option<string>)
    ensures token.Some? <==> env.jwtSecret != ""
    ensures token.Some? ==> token.value == env.jwtSign(claims, env.jwtSecret, ttl)
  {
    if env.jwtSecret == "" then None else Some(env.jwtSign(claims, env.jwtSecret, ttl))
  }
}
