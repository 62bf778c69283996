/** Metal3 host IDs (internal/inventory/metal3.go): "namespace/name". */
module HostIds {
  import opened Wrappers
  import opened GoStrings

  function ParseHostID(id: string): Option<(string, string)> {
    var parts := SplitOnce(id);
    if |parts| != 2 || parts[0] == "" || parts[1] == "" then None else Some((parts[0], parts[1]))
  }

  /** The ID bmhToHost reports for a host. */
  function PrintHostID(namespace: string, name: string): string {
    namespace + "/" + name
  }

  /** Accepted IDs are rebuilt from their parts. */
  lemma ParsedIsPrinted(id: string)
    ensures ParseHostID(id).Some? ==>
      var (namespace, name) := ParseHostID(id).value;
      PrintHostID(namespace, name) == id && namespace != "" && SlashFree(namespace) && name != ""
  {
  }

  /** Printing is undone by parsing exactly for non-empty parts and a slash-free namespace. */
  lemma PrintedIsParsed(namespace: string, name: string)
    ensures ParseHostID(PrintHostID(namespace, name)) == Some((namespace, name))
      <==> namespace != "" && SlashFree(namespace) && name != ""
  {
    if SlashFree(namespace) { SplitJoined(namespace, name); }
  }
}
