/**
 * The values the RabbitMQ appender computes without touching its state: the
 * retry backoff schedule, a task's correlation id and publish properties, and
 * the connection description used in error reports.
 */
module Delivery {
  import opened Wrappers
  import opened JavaText

  // ---------------------------------------------------------------------------
  // Backoff between publish attempts
  // ---------------------------------------------------------------------------

  /** The cap on the sleep between attempts, in milliseconds. */
  const MaxBackoff := 1024

  /** The sleep after the `failures`-th consecutive IOException (counting from 0). */
  function Backoff(failures: nat): (b: nat)
    ensures 1 <= b <= MaxBackoff
  {
    if failures == 0 then 1 else Min(2 * Backoff(failures - 1), MaxBackoff)
  }

  function Pow2(n: nat): (p: nat)
    ensures p >= 1
  {
    if n == 0 then 1 else 2 * Pow2(n - 1)
  }

  lemma {:induction false} Pow2Monotone(i: nat, j: nat)
    requires i <= j
    ensures Pow2(i) <= Pow2(j)
  {
    if i < j {
      Pow2Monotone(i, j - 1);
    }
  }

  /** Every sleep is a power of two: 2^k for the first ten failures, 2^10 = 1024 from then on. */
  lemma {:induction false} BackoffIsPowerOfTwo(failures: nat)
    ensures Backoff(failures) == Pow2(Min(failures, 10))
  {
    assert Pow2(10) == 1024;
    if failures > 0 {
      BackoffIsPowerOfTwo(failures - 1);
      if failures <= 10 {
        Pow2Monotone(failures, 10);
      }
    }
  }

  /** The sleeps never decrease. */
  lemma {:induction false} BackoffNonDecreasing(i: nat, j: nat)
    requires i <= j
    ensures Backoff(i) <= Backoff(j)
  {
    if i < j {
      BackoffNonDecreasing(i, j - 1);
    }
  }

  /** From the eleventh consecutive failure (index 10) on, every sleep is the cap. */
  lemma BackoffSaturates(failures: nat)
    requires failures >= 10
    ensures Backoff(failures) == MaxBackoff
  {
    BackoffIsPowerOfTwo(failures);
    assert Pow2(10) == 1024;
  }

  /** The schedule begins 1, 2, 4, ..., 512, 1024, 1024. */
  lemma BackoffPrefix()
    ensures seq(12, k requires 0 <= k < 12 => Backoff(k)) == [1, 2, 4, 8, 16, 32, 64, 128, 256, 512, 1024, 1024]
  {
    assert Backoff(11) == 1024;
  }

  // ---------------------------------------------------------------------------
  // Tasks and their publish properties
  // ---------------------------------------------------------------------------

  /** `%s` of a possibly-null identifier. */
  function IdentifierText(identifier: Option<string>): string
  {
    if identifier.None? then "null" else identifier.value
  }

  /** `String.format("%s:%s", identifier, millis)`. */
  function CorrelationId(identifier: Option<string>, millis: nat): string
  {
    IdentifierText(identifier) + ":" + Decimal(millis)
  }

  /**
   * Splits a correlation id at its last colon into the identifier and the
   * capture time. The identifier may contain colons itself (an IPv6 host name);
   * the time never does.
   */
  function SplitCorrelationId(id: string): Option<(string, nat)>
  {
    if ':' !in id then None
    else
      var i := LastIndexOf(id, ':');
      var time := id[i + 1..];
      if time != [] && IsDigits(time) then Some((id[..i], ParseDecimal(time))) else None
  }

  /** A correlation id keeps both its parts: the identifier and the capture time are recovered exactly. */
  lemma {:induction false} SplitCorrelationIdInverts(identifier: Option<string>, millis: nat)
    ensures SplitCorrelationId(CorrelationId(identifier, millis)) == Some((IdentifierText(identifier), millis))
  {
    var p := IdentifierText(identifier);
    var d := Decimal(millis);
    var id := CorrelationId(identifier, millis);
    assert id == p + ":" + d;
    assert id[|p|] == ':';
    var i := LastIndexOf(id, ':');
    assert i == |p|;
    assert id[i + 1..] == d;
    assert id[..i] == p;
    ParseDecimalInvertsDecimal(millis);
  }

  /** The AMQP basic properties a task publishes with. */
  datatype Properties = Properties(appId: Option<string>, messageType: string, correlationId: string, contentType: string)

  const ContentType := "text/json"

  /** One `basicPublish` call's arguments. */
  datatype AmqpMessage = AmqpMessage(exchange: string, routingKey: string, properties: Properties, body: string)

  /** An `AppenderTask`: the payload rendered at capture time, the correlation id and the level's name. */
  datatype Task = Task(payload: string, id: string, level: string)

  // ---------------------------------------------------------------------------
  // Connection description
  // ---------------------------------------------------------------------------

  const PasswordMask := "******"

  function ShownPassword(password: Option<string>): string
  {
    if password.None? || password.value == "" then "" else PasswordMask
  }

  predicate HasPassword(password: Option<string>)
  {
    password.Some? && password.value != ""
  }

  /** `getConnectionDetails`. */
  function ConnectionDetails(host: string, port: int, virtualHost: string, username: string,
                             password: Option<string>, ssl: bool): string
  {
    "Host: " + host + ", " +
    "Port: " + IntText(port) + ", " +
    "Virtual Host:" + virtualHost + ", " +
    "Username: " + username + ", " +
    "Password: " + ShownPassword(password) + ", " +
    "SSL: " + BoolText(ssl) + ", "
  }

  /**
   * The description tells only whether a password is set: two configurations
   * that differ only in the password give the same description exactly when
   * both have a password or both have none.
   */
  lemma ConnectionDetailsMaskPassword(host: string, port: int, virtualHost: string, username: string,
                                      p: Option<string>, q: Option<string>, ssl: bool)
    ensures ConnectionDetails(host, port, virtualHost, username, p, ssl) == ConnectionDetails(host, port, virtualHost, username, q, ssl)
            <==> HasPassword(p) == HasPassword(q)
  {
    var a := ConnectionDetails(host, port, virtualHost, username, p, ssl);
    var b := ConnectionDetails(host, port, virtualHost, username, q, ssl);
    assert |a| - |ShownPassword(p)| == |b| - |ShownPassword(q)|;
  }
}
