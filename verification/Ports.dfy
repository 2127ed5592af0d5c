/** What a verified token says about its bearer. */
module Ports {
  datatype Claims = Claims(subject: string, client: string, scopes: seq<string>)
}
