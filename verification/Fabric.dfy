/** The cached fabric: nodes as matter-server describes them. JSON is kept abstract: a value is a
    string, null, some other document, or no bytes at all. */
module Fabric {
  datatype Json = NoBytes | Null | Str(s: string) | Other(raw: string)

  datatype Node = Node(id: nat, available: bool, info: string, attrs: map<string, Json>)

  type Cache = map<nat, Node>

  /** A missing value is published as null, so a payload carrying a value is never empty. */
  function NonNil(v: Json): (r: Json)
    ensures r != NoBytes
    ensures v != NoBytes ==> r == v
  {
    if v == NoBytes then Null else v
  }
}
