/** kafka.ConfigMap as the two Kafka clients of pkg/kafkacomm fill it. */
module KafkaConfig {
  import opened Config

  type ConfigMap = map<string, string>

  /** The four keys for SCRAM authentication against Strimzi Kafka. */
  function SaslKeys(c: Config): (m: ConfigMap)
    ensures m.Keys == {"sasl.mechanism", "sasl.username", "sasl.password", "security.protocol"}
    ensures m["sasl.mechanism"] == "SCRAM-SHA-512" && m["security.protocol"] == "SASL_PLAINTEXT"
    ensures m["sasl.username"] == c.kafkaUsername && m["sasl.password"] == c.kafkaPassword
  {
    map["sasl.mechanism" := "SCRAM-SHA-512", "sasl.username" := c.kafkaUsername,
        "sasl.password" := c.kafkaPassword, "security.protocol" := "SASL_PLAINTEXT"]
  }

  /** The SetKey calls guarded by `useSASL == "true"`. */
  function WithSasl(base: ConfigMap, c: Config): (m: ConfigMap)
    ensures UseSasl(c) ==> m == base + SaslKeys(c)
    ensures !UseSasl(c) ==> m == base
  {
    if c.useSASLForKafka == "true" then base + SaslKeys(c) else base
  }

  /** The SASL keys are present exactly when the switch is the text "true",
      and the keys set before are kept. */
  lemma {:induction false} SaslKeysIffSwitch(base: ConfigMap, c: Config)
    requires "sasl.mechanism" !in base && "security.protocol" !in base
    ensures "sasl.mechanism" in WithSasl(base, c) <==> c.useSASLForKafka == "true"
    ensures "security.protocol" in WithSasl(base, c) <==> c.useSASLForKafka == "true"
    ensures forall k :: k in base && k !in SaslKeys(c) ==> k in WithSasl(base, c) && WithSasl(base, c)[k] == base[k]
  {
    var m := WithSasl(base, c);
    if UseSasl(c) {
      assert "sasl.mechanism" in SaslKeys(c).Keys;
      assert "security.protocol" in SaslKeys(c).Keys;
    }
  }
}
