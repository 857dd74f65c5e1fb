/**
 * The records the orchestrator exchanges with saga participants: a command sent out for a
 * participant step and the participant's verdict on it.
 */
module Commands {

  /** The opaque identity of one saga instance. */
  type SagaId = string

  /** A saga's payload. The engine carries it from step to step and never inspects it. */
  type Data = map<string, string>

  /** A directive for a participant, produced by a participant step's callback. */
  datatype Command = Command(name: string, sagaId: SagaId, payload: Data)

  /** A participant's answer: `ok` is false when it could not perform the command. */
  datatype CommandResponse = CommandResponse(name: string, sagaId: SagaId, ok: bool)
}
