/** The configuration fields the other modules depend on. Durations are nanoseconds. */
module Config {
  import opened Retry

  const SECOND: int := 1_000_000_000
  const MINUTE: int := 60 * SECOND

  datatype Config = Config(
    url: string, exchange: string, exchangeType: string, skipExchangeDeclare: bool,
    channelPoolSize: Int64, maxChannelAge: Int64, publishConfirmTimeout: Int64, defaultContentType: string,
    prefetchCount: Int64, maxRetries: Int64, disableDeadLetter: bool,
    deadLetterExchangeSuffix: string, deadLetterQueueSuffix: string,
    dialTimeout: Int64, connectionTimeout: Int64, channelCreateTimeout: Int64, confirmEnableTimeout: Int64,
    reconnectMaxBackoff: Int64)

  /** What the rest of the library relies on. */
  predicate Normalized(c: Config) {
    && c.exchangeType != "" && c.defaultContentType != ""
    && c.deadLetterExchangeSuffix != "" && c.deadLetterQueueSuffix != ""
    && c.channelPoolSize > 0 && c.maxChannelAge > 0 && c.publishConfirmTimeout > 0
    && c.dialTimeout > 0 && c.connectionTimeout > 0
    && c.channelCreateTimeout > 0 && c.confirmEnableTimeout > 0
    && c.reconnectMaxBackoff > 0
  }

  function PositiveOr(v: Int64, fallback: Int64): Int64 {
    if v <= 0 then fallback else v
  }

  function TextOr(v: string, fallback: string): string {
    if v == "" then fallback else v
  }

  /** A field that is not set takes its default, any other is kept. */
  predicate Defaulted(was: Int64, now: Int64, fallback: Int64) {
    if was <= 0 then now == fallback else now == was
  }

  predicate TextDefaulted(was: string, now: string, fallback: string) {
    if was == "" then now == fallback else now == was
  }

  /**
   * Replaces every unset field by its default on a private copy. A normalized configuration is a fixed
   * point, so a second normalization changes nothing.
   */
  method Normalize(config: Config) returns (c: Config)
    ensures Normalized(c)
    ensures Normalized(config) ==> c == config
    ensures TextDefaulted(config.exchangeType, c.exchangeType, "direct")
    ensures Defaulted(config.channelPoolSize, c.channelPoolSize, 10)
    ensures Defaulted(config.maxChannelAge, c.maxChannelAge, 30 * MINUTE)
    ensures Defaulted(config.publishConfirmTimeout, c.publishConfirmTimeout, 5 * SECOND)
    ensures TextDefaulted(config.defaultContentType, c.defaultContentType, "application/json")
    ensures Defaulted(config.dialTimeout, c.dialTimeout, 10 * SECOND)
    ensures Defaulted(config.connectionTimeout, c.connectionTimeout, 15 * SECOND)
    ensures Defaulted(config.channelCreateTimeout, c.channelCreateTimeout, 5 * SECOND)
    ensures Defaulted(config.confirmEnableTimeout, c.confirmEnableTimeout, 5 * SECOND)
    ensures Defaulted(config.reconnectMaxBackoff, c.reconnectMaxBackoff, 30 * SECOND)
    ensures TextDefaulted(config.deadLetterExchangeSuffix, c.deadLetterExchangeSuffix, ".dlx")
    ensures TextDefaulted(config.deadLetterQueueSuffix, c.deadLetterQueueSuffix, ".dlq")
    ensures c.url == config.url && c.exchange == config.exchange
    ensures c.skipExchangeDeclare == config.skipExchangeDeclare
    ensures c.prefetchCount == config.prefetchCount && c.maxRetries == config.maxRetries
    ensures c.disableDeadLetter == config.disableDeadLetter
  {
    c := config;
    c := c.(exchangeType := TextOr(c.exchangeType, "direct"));
    c := c.(channelPoolSize := PositiveOr(c.channelPoolSize, 10));
    c := c.(maxChannelAge := PositiveOr(c.maxChannelAge, 30 * MINUTE));
    c := c.(publishConfirmTimeout := PositiveOr(c.publishConfirmTimeout, 5 * SECOND));
    c := c.(defaultContentType := TextOr(c.defaultContentType, "application/json"));
    c := c.(dialTimeout := PositiveOr(c.dialTimeout, 10 * SECOND));
    c := c.(connectionTimeout := PositiveOr(c.connectionTimeout, 15 * SECOND));
    c := c.(channelCreateTimeout := PositiveOr(c.channelCreateTimeout, 5 * SECOND));
    c := c.(confirmEnableTimeout := PositiveOr(c.confirmEnableTimeout, 5 * SECOND));
    c := c.(reconnectMaxBackoff := PositiveOr(c.reconnectMaxBackoff, 30 * SECOND));
    c := c.(deadLetterExchangeSuffix := TextOr(c.deadLetterExchangeSuffix, ".dlx"));
    c := c.(deadLetterQueueSuffix := TextOr(c.deadLetterQueueSuffix, ".dlq"));
  }
}
