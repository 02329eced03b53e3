/** Event types, channels and priorities, with the fixed tables of src/shared/constants. */
module Events {

  datatype Category = Txnx | Risk | Sipx | Mktx | Regx | Digest

  /** `RISK-001` is Event(Risk, 1); the system's own DIGEST event is Event(Digest, 0). */
  datatype EventType = Event(category: Category, number: nat)

  /** `Other` stands for any channel name outside the five the system serves. */
  datatype Channel = Sms | Email | Push | WhatsApp | InApp | Other(name: string)

  const ALL_CHANNELS: seq<Channel> := [Sms, Email, Push, WhatsApp, InApp]

  datatype Classification = Transactional | Promotional

  datatype Priority = Critical | High | Medium | Low

  const REGULATORY_MANDATORY_EVENTS: set<EventType> := {
    Event(Txnx, 1), Event(Txnx, 2), Event(Txnx, 3), Event(Txnx, 5),
    Event(Risk, 1), Event(Risk, 2), Event(Risk, 3),
    Event(Sipx, 2), Event(Sipx, 3), Event(Mktx, 2), Event(Regx, 1), Event(Regx, 3)
  }

  const CRITICAL_EVENTS: set<EventType> := {
    Event(Risk, 1), Event(Risk, 2), Event(Risk, 3), Event(Mktx, 2)
  }

  const TRANSACTIONAL_EVENTS: set<EventType> := {
    Event(Txnx, 1), Event(Txnx, 2), Event(Txnx, 3), Event(Txnx, 4), Event(Txnx, 5),
    Event(Risk, 1), Event(Risk, 2), Event(Risk, 3),
    Event(Sipx, 2), Event(Sipx, 3), Event(Mktx, 2), Event(Regx, 1), Event(Regx, 3)
  }

  function Classify(event: EventType): Classification {
    if event in TRANSACTIONAL_EVENTS then Transactional else Promotional
  }
}
