// The private edge/core protocol of internal/terminalwire/protocol.go.
module Terminalwire {

  datatype Kind = Open | Input | Poll | Close

  // UUIDs are natural numbers. `line` is the input text, empty unless kind is Input.
  datatype Request = Request(edge: nat, id: nat, sequence: nat, ack: nat, kind: Kind, line: string)

  datatype Output = Output(id: nat, data: string)

  datatype Response = Response(sequence: nat, output: seq<Output>, closed: bool, reset: bool)
}
