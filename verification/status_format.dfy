/** formatStatus, which appears identically in the client order-history panel,
    the client tracking panel and the admin completed-orders panel: the first
    character is upper-cased, the rest lower-cased with every '_' read as a space. */
module StatusFormat {
  import opened Text

  /** String.replace(char, char): every `from` becomes `to`. */
  function ReplaceChar(s: string, from: char, to: char): (r: string)
    ensures |r| == |s|
    ensures forall i :: 0 <= i < |s| ==> r[i] == (if s[i] == from then to else s[i])
  {
    if |s| == 0 then [] else [if s[0] == from then to else s[0]] + ReplaceChar(s[1..], from, to)
  }

  /** formatStatus. An empty status makes substring(0, 1) throw, so the source
      demands a non-empty argument. */
  function FormatStatus(status: string): (r: string)
    requires |status| >= 1
    ensures |r| == |status|
    ensures r[0] == ToUpper(status[0])
    ensures forall i :: 1 <= i < |status| ==>
              r[i] == (if status[i] == '_' then ' ' else ToLower(status[i]))
  {
    [ToUpper(status[0])] + ReplaceChar(LowerString(status[1..]), '_', ' ')
  }

  /** Past its first character a formatted status holds neither an underscore
      nor an upper-case ASCII letter. */
  lemma FormattedTailIsLowerWithoutUnderscore(status: string)
    requires |status| >= 1
    ensures forall i :: 1 <= i < |status| ==>
              FormatStatus(status)[i] != '_' && !('A' <= FormatStatus(status)[i] <= 'Z')
  {
  }

  /** Formatting an already formatted status changes nothing. */
  lemma {:induction false} FormatStatusIdempotent(status: string)
    requires |status| >= 1
    ensures FormatStatus(FormatStatus(status)) == FormatStatus(status)
  {
    var f := FormatStatus(status);
    var g := FormatStatus(f);
    assert g[0] == f[0];
    forall i | 1 <= i < |f| ensures g[i] == f[i] {
      assert f[i] != '_';
    }
  }

  /** formatStatus is fixed by its character-wise description. */
  lemma FormatStatusIsCharwise(status: string, expected: string)
    requires |status| >= 1 && |expected| == |status|
    requires expected[0] == ToUpper(status[0])
    requires forall i :: 1 <= i < |status| ==>
               expected[i] == (if status[i] == '_' then ' ' else ToLower(status[i]))
    ensures FormatStatus(status) == expected
  {
  }

  /** "in_transit" is shown as "In transit" in the order history. */
  lemma FormatInTransit()
    ensures FormatStatus("in_transit") == "In transit"
  {
    FormatStatusIsCharwise("in_transit", "In transit");
  }

  /** Delivered orders, the only ones the history lists, read "Delivered". */
  lemma FormatDelivered()
    ensures FormatStatus("delivered") == "Delivered"
  {
    FormatStatusIsCharwise("delivered", "Delivered");
  }
}
