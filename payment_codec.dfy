/**
 * The gateway codec of service/payment.js: the canonical trade string,
 * its encryption, the keyed signature over the ciphertext, and the
 * clean-up of decrypted notifications.
 *
 * AES-256-CBC, SHA-256, JSON.parse and JavaScript's rendering of a
 * non-integral Number are not modelled: they are the function values of
 * a `Primitives` record that every operation takes as a parameter, so
 * nothing below depends on what they compute.
 */
module PaymentCodec {
  import opened Common
  import opened PercentEncoding
  import opened QueryString

  /** The process-wide gateway configuration read from the environment (service/payment.js:6-14). */
  datatype Config = Config(
    merchantId: string,
    hashKey: string,
    hashIV: string,
    version: string,
    returnUrl: string,
    notifyUrl: string,
    payGateway: string)

  /** The three fields of a notification's `Result` object that the handler reads. */
  datatype TradeResult = TradeResult(tradeNo: string, merchantOrderNo: string, payTime: string)

  datatype Primitives = Primitives(
    /** AES-256-CBC of a UTF-8 plaintext under (key, iv), hex-encoded. */
    aesEncrypt: (string, string, string) -> string,
    /** AES-256-CBC decryption of a hex ciphertext without auto padding; None where the cipher throws. */
    aesDecrypt: (string, string, string) -> Option<string>,
    /** SHA-256 of a string, as lower-case hex. */
    sha256Hex: string -> string,
    /** `JSON.parse(text).Result`; None where parsing throws or `Result` is absent. */
    parseResult: string -> Option<TradeResult>,
    /** `String(x)` for a Number that is not an integer. */
    fractionText: real -> string)

  /** An `Amt` as a request body carries it: a JSON number, or text (a urlencoded
      form field, or a JSON string). */
  datatype Amount = Number(x: real) | Text(s: string)

  /** The payment object handed to `initiatePayment`. The data chain reads only
      timeStamp, merchantOrderNo, amt, itemDesc and email from it. */
  datatype PaymentData = PaymentData(
    merchantId: string,
    respondType: string,
    timeStamp: nat,
    version: string,
    merchantOrderNo: string,
    amt: Amount,
    itemDesc: string,
    email: string,
    returnUrl: string,
    notifyUrl: string)

  /** The redirect bundle `initiatePayment` returns (service/payment.js:64-72). */
  datatype Bundle = Bundle(
    merchantId: string,
    tradeInfo: string,
    tradeSha: string,
    version: string,
    payGateway: string,
    returnUrl: string,
    notifyUrl: string)

  // ---- rendering numbers ----

  function DigitChar(d: nat): char
    requires d < 10
  {
    "0123456789"[d]
  }

  /** The decimal text of a natural number, as `String(n)` gives it. */
  function NatText(n: nat): (r: string)
    ensures |r| >= 1
    ensures forall i | 0 <= i < |r| :: '0' <= r[i] <= '9'
  {
    if n < 10 then [DigitChar(n)] else NatText(n / 10) + [DigitChar(n % 10)]
  }

  /** The number a string of decimal digits denotes. */
  function DecimalValue(s: string): nat
    requires forall i | 0 <= i < |s| :: '0' <= s[i] <= '9'
  {
    if s == [] then 0
    else DecimalValue(s[..|s| - 1]) * 10 + (s[|s| - 1] as int - '0' as int)
  }

  lemma {:induction false} NatTextValue(n: nat)
    ensures DecimalValue(NatText(n)) == n
  {
    var r := NatText(n);
    if n >= 10 {
      NatTextValue(n / 10);
      assert r[..|r| - 1] == NatText(n / 10);
    }
  }

  /** `String(x)` for a Number: plain (signed) decimal when x is an integer. */
  function NumberText(p: Primitives, x: real): string
  {
    if x == x.Floor as real then
      (if x.Floor < 0 then "-" + NatText(-x.Floor) else NatText(x.Floor))
    else p.fractionText(x)
  }

  /** `${amt}`: a number rendered by `String`, text written as it came. */
  function AmountText(p: Primitives, a: Amount): string
  {
    match a
    case Number(x) => NumberText(p, x)
    case Text(s) => s
  }

  lemma IntegralNumberText(p: Primitives, x: real)
    requires x == x.Floor as real
    ensures '&' !in NumberText(p, x) && '=' !in NumberText(p, x)
  {
    var t := if x.Floor < 0 then NatText(-x.Floor) else NatText(x.Floor);
    assert '&' !in t && '=' !in t;
  }

  // ---- the trade string (genDataChain) ----

  const ChainKeys: seq<string> := ["MerchantID", "TimeStamp", "Version", "RespondType", "MerchantOrderNo",
                                   "Amt", "NotifyURL", "ReturnURL", "ItemDesc", "Email"]

  function Field(key: string, value: string): string
  {
    key + "=" + value
  }

  /** The ten values of the trade string, in the order of `ChainKeys`: the merchant,
      version and URLs from the configuration, the URLs, ItemDesc and Email percent-encoded. */
  function ChainValues(cfg: Config, p: Primitives, d: PaymentData): (vs: seq<string>)
    ensures |vs| == 10
  {
    [cfg.merchantId, NatText(d.timeStamp), cfg.version, "JSON", d.merchantOrderNo,
     AmountText(p, d.amt), EncodeURIComponent(cfg.notifyUrl), EncodeURIComponent(cfg.returnUrl),
     EncodeURIComponent(d.itemDesc), EncodeURIComponent(d.email)]
  }

  function ChainParts(cfg: Config, p: Primitives, d: PaymentData): seq<string>
  {
    var values := ChainValues(cfg, p, d);
    seq(10, i requires 0 <= i < 10 => Field(ChainKeys[i], values[i]))
  }

  /** `genDataChain(order)`: `key=value` for the ten keys in the gateway's fixed order, joined by `&`. */
  function GenDataChain(cfg: Config, p: Primitives, d: PaymentData): string
  {
    Join(ChainParts(cfg, p, d), '&')
  }

  /** What a receiver reads back from a trade string, the encoded fields decoded. */
  datatype ChainView = ChainView(
    merchantId: string,
    timeStamp: string,
    version: string,
    respondType: string,
    merchantOrderNo: string,
    amt: string,
    notifyUrl: string,
    returnUrl: string,
    itemDesc: string,
    email: string)

  /** Reads a trade string: split on `&`, each piece on its first `=`, the keys in the
      fixed order, and NotifyURL, ReturnURL, ItemDesc and Email percent-decoded. */
  function ParseDataChain(chain: string): Option<ChainView>
  {
    var fs := Fields(chain);
    if |fs| != 10 || exists i | 0 <= i < 10 :: fs[i].None? || fs[i].value.0 != ChainKeys[i] then None
    else
      match (DecodeURIComponent(fs[6].value.1), DecodeURIComponent(fs[7].value.1),
             DecodeURIComponent(fs[8].value.1), DecodeURIComponent(fs[9].value.1))
      case (Some(notify), Some(ret), Some(desc), Some(mail)) =>
        Some(ChainView(fs[0].value.1, fs[1].value.1, fs[2].value.1, fs[3].value.1, fs[4].value.1,
                       fs[5].value.1, notify, ret, desc, mail))
      case _ => None
  }

  lemma ChainKeysPlain()
    ensures forall i | 0 <= i < 10 :: '&' !in ChainKeys[i] && '=' !in ChainKeys[i]
  {
  }

  lemma ChainValuesWithoutAmpersand(cfg: Config, p: Primitives, d: PaymentData)
    requires '&' !in cfg.merchantId && '&' !in cfg.version && '&' !in d.merchantOrderNo
    requires '&' !in AmountText(p, d.amt)
    ensures forall i | 0 <= i < 10 :: '&' !in ChainValues(cfg, p, d)[i]
  {
    var t := NatText(d.timeStamp);
    assert '&' !in t by {
      forall k | 0 <= k < |t| ensures t[k] != '&' { }
    }
  }

  /** Splitting the trade string on `&` and each piece on its first `=` gives exactly the
      ten fixed keys with their values, whenever the values written raw hold no `&`. */
  lemma DataChainFields(cfg: Config, p: Primitives, d: PaymentData)
    requires '&' !in cfg.merchantId && '&' !in cfg.version && '&' !in d.merchantOrderNo
    requires '&' !in AmountText(p, d.amt)
    ensures |Fields(GenDataChain(cfg, p, d))| == 10
    ensures forall i | 0 <= i < 10 :: Fields(GenDataChain(cfg, p, d))[i] == Some((ChainKeys[i], ChainValues(cfg, p, d)[i]))
  {
    var values := ChainValues(cfg, p, d);
    var parts := ChainParts(cfg, p, d);
    ChainKeysPlain();
    ChainValuesWithoutAmpersand(cfg, p, d);
    forall i | 0 <= i < 10 ensures '&' !in parts[i] {
      assert parts[i] == ChainKeys[i] + "=" + values[i];
    }
    SplitJoin(parts, '&');
    forall i | 0 <= i < 10 ensures KeyValue(parts[i]) == Some((ChainKeys[i], values[i])) {
      KeyValueOf(ChainKeys[i], values[i]);
    }
  }

  /** The round trip: a receiver reading the trade string recovers every field, the
      percent-encoded ones decoded back to their original text. */
  lemma DataChainRoundTrip(cfg: Config, p: Primitives, d: PaymentData)
    requires '&' !in cfg.merchantId && '&' !in cfg.version && '&' !in d.merchantOrderNo
    requires '&' !in AmountText(p, d.amt)
    ensures ParseDataChain(GenDataChain(cfg, p, d))
         == Some(ChainView(cfg.merchantId, NatText(d.timeStamp), cfg.version, "JSON", d.merchantOrderNo,
                           AmountText(p, d.amt), cfg.notifyUrl, cfg.returnUrl, d.itemDesc, d.email))
  {
    DataChainFields(cfg, p, d);
    DecodeEncode(cfg.notifyUrl);
    DecodeEncode(cfg.returnUrl);
    DecodeEncode(d.itemDesc);
    DecodeEncode(d.email);
  }

  /** The chain reads only the order's TimeStamp, MerchantOrderNo, Amt, ItemDesc and Email:
      whatever merchant, version or URLs the order carries, the configuration's are used. */
  lemma DataChainIgnoresOrderConfig(cfg: Config, p: Primitives, d1: PaymentData, d2: PaymentData)
    requires d1.timeStamp == d2.timeStamp && d1.merchantOrderNo == d2.merchantOrderNo && d1.amt == d2.amt
    requires d1.itemDesc == d2.itemDesc && d1.email == d2.email
    ensures GenDataChain(cfg, p, d1) == GenDataChain(cfg, p, d2)
  {
  }

  // ---- encryption and signature ----

  /** `createSesEncrypt(order)` */
  function SesEncrypt(cfg: Config, p: Primitives, d: PaymentData): string
  {
    p.aesEncrypt(cfg.hashKey, cfg.hashIV, GenDataChain(cfg, p, d))
  }

  const HashKeyPrefix: string := "HashKey="
  const HashIVPrefix: string := "&HashIV="

  /** The signature pre-image: the ciphertext between the two secrets. The ciphertext
      in it can be read back, so one key pair signs each ciphertext through its own pre-image. */
  function ShaPreimage(cfg: Config, tradeInfo: string): (r: string)
    ensures |r| == |HashKeyPrefix| + |cfg.hashKey| + 1 + |tradeInfo| + |HashIVPrefix| + |cfg.hashIV|
    ensures r[..|HashKeyPrefix| + |cfg.hashKey| + 1] == HashKeyPrefix + cfg.hashKey + "&"
    ensures r[|HashKeyPrefix| + |cfg.hashKey| + 1..|r| - |HashIVPrefix| - |cfg.hashIV|] == tradeInfo
    ensures r[|r| - |HashIVPrefix| - |cfg.hashIV|..] == HashIVPrefix + cfg.hashIV
  {
    var head := HashKeyPrefix + cfg.hashKey + "&";
    var tail := HashIVPrefix + cfg.hashIV;
    assert (head + tradeInfo + tail)[..|head|] == head;
    assert (head + tradeInfo + tail)[|head|..|head| + |tradeInfo|] == tradeInfo;
    assert (head + tradeInfo + tail)[|head| + |tradeInfo|..] == tail;
    head + tradeInfo + tail
  }

  lemma ShaPreimageInjective(cfg: Config, t1: string, t2: string)
    requires ShaPreimage(cfg, t1) == ShaPreimage(cfg, t2)
    ensures t1 == t2
  {
  }

  predicate IsLower(c: char)
  {
    'a' <= c <= 'z'
  }

  function UpperChar(c: char): char
  {
    if IsLower(c) then (c as int - 32) as char else c
  }

  /** `toUpperCase()` on text whose letters are ASCII, as a hex digest's are. */
  function ToUpper(s: string): (r: string)
    ensures |r| == |s|
    ensures forall i | 0 <= i < |r| :: !IsLower(r[i])
    ensures forall i | 0 <= i < |r| :: !IsLower(s[i]) ==> r[i] == s[i]
    ensures forall i | 0 <= i < |r| :: IsLower(s[i]) ==> r[i] as int == s[i] as int - 32
  {
    seq(|s|, i requires 0 <= i < |s| => UpperChar(s[i]))
  }

  lemma ToUpperIdempotent(s: string)
    ensures ToUpper(ToUpper(s)) == ToUpper(s)
  {
  }

  /** `createShaEncrypt(tradeInfo)`: the upper-cased SHA-256 of the pre-image. */
  function ShaEncrypt(cfg: Config, p: Primitives, tradeInfo: string): (sha: string)
    ensures forall i | 0 <= i < |sha| :: !IsLower(sha[i])
  {
    ToUpper(p.sha256Hex(ShaPreimage(cfg, tradeInfo)))
  }

  lemma ShaEncryptUpperStable(cfg: Config, p: Primitives, tradeInfo: string)
    ensures ToUpper(ShaEncrypt(cfg, p, tradeInfo)) == ShaEncrypt(cfg, p, tradeInfo)
  {
    ToUpperIdempotent(p.sha256Hex(ShaPreimage(cfg, tradeInfo)));
  }

  // ---- decryption clean-up ----

  predicate IsControlOrSpace(c: char)
  {
    c as int <= 0x20
  }

  /** `text.replace(/[\x00-\x20]+/g, '')`: every character up to U+0020 deleted. */
  function Clean(s: string): (r: string)
    ensures |r| <= |s|
    ensures forall i | 0 <= i < |r| :: !IsControlOrSpace(r[i])
    ensures (forall i | 0 <= i < |s| :: !IsControlOrSpace(s[i])) ==> r == s
    ensures (forall i | 0 <= i < |s| :: IsControlOrSpace(s[i])) ==> r == ""
  {
    if s == [] then ""
    else if IsControlOrSpace(s[0]) then Clean(s[1..])
    else [s[0]] + Clean(s[1..])
  }

  /** Cleaning works piece by piece, so kept characters keep their order. */
  lemma {:induction false} CleanAppend(a: string, b: string)
    ensures Clean(a + b) == Clean(a) + Clean(b)
  {
    if a == [] {
      assert a + b == b;
    } else {
      assert (a + b)[0] == a[0] && (a + b)[1..] == a[1..] + b;
      CleanAppend(a[1..], b);
    }
  }

  lemma CleanIdempotent(s: string)
    ensures Clean(Clean(s)) == Clean(s)
  {
  }

  /** `createSesDecrypt(tradeInfo)`: decrypt, delete control characters and spaces, parse. */
  function SesDecrypt(cfg: Config, p: Primitives, tradeInfo: string): Option<TradeResult>
  {
    match p.aesDecrypt(cfg.hashKey, cfg.hashIV, tradeInfo)
    case None => None
    case Some(text) => p.parseResult(Clean(text))
  }

  // ---- the redirect bundle ----

  /** `initiatePayment(paymentData)`: the bundle's TradeSha signs exactly its TradeInfo,
      the encryption of the trade string; every other field is configuration. */
  function InitiatePayment(cfg: Config, p: Primitives, d: PaymentData): (b: Bundle)
    ensures b.tradeSha == ShaEncrypt(cfg, p, b.tradeInfo)
    ensures b.tradeInfo == p.aesEncrypt(cfg.hashKey, cfg.hashIV, GenDataChain(cfg, p, d))
    ensures b.merchantId == cfg.merchantId && b.version == cfg.version && b.payGateway == cfg.payGateway
    ensures b.returnUrl == cfg.returnUrl && b.notifyUrl == cfg.notifyUrl
  {
    var tradeInfo := SesEncrypt(cfg, p, d);
    Bundle(cfg.merchantId, tradeInfo, ShaEncrypt(cfg, p, tradeInfo), cfg.version, cfg.payGateway,
           cfg.returnUrl, cfg.notifyUrl)
  }
}
