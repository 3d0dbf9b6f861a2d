/** components/ui/StatusBadge.js: an order status shown as a coloured badge.
    The status is normalised (missing becomes "UNKNOWN"), its colour class
    looked up in a table with a default, and its label formatted for
    reading ("OUT_FOR_DELIVERY" reads "Out For Delivery"). */
module StatusBadge {
  import opened Common

  const StatusColors: map<string, string> := map[
    "PENDING" := "badge-warning",
    "CONFIRMED" := "badge-info",
    "PREPARING" := "badge-info",
    "OUT_FOR_DELIVERY" := "badge-info",
    "COMPLETED" := "badge-success",
    "CANCELLED" := "badge-danger"
  ]

  const DefaultClass := "badge-info"

  /** What the component renders: the colour class and the label text. */
  datatype Badge = Badge(cls: string, text: string)

  /** `status || "UNKNOWN"`. */
  function Normalize(status: Option<string>): (r: string)
    ensures r != ""
    ensures Truthy(status) ==> r == status.value
  {
    if Truthy(status) then status.value else "UNKNOWN"
  }

  /** `STATUS_COLORS[normalized] || "badge-info"`. */
  function BadgeClass(normalized: string): (r: string)
    ensures r in StatusColors.Values
    ensures normalized in StatusColors ==> r == StatusColors[normalized]
    ensures normalized !in StatusColors ==> r == DefaultClass
  {
    assert StatusColors["CONFIRMED"] == DefaultClass;
    if normalized in StatusColors then StatusColors[normalized] else DefaultClass
  }

  /** `.replace(/_/g, " ")`. */
  function ReplaceUnderscores(s: string): (r: string)
    ensures |r| == |s|
    ensures forall i :: 0 <= i < |s| ==> r[i] == (if s[i] == '_' then ' ' else s[i])
  {
    seq(|s|, i requires 0 <= i < |s| => if s[i] == '_' then ' ' else s[i])
  }

  /** `.replace(/(^|\s)\S/g, c => c.toUpperCase())` from a position whose
      predecessor is white space (or the start) when `afterSpace` holds. A
      match consumes the non-space character, so the next match cannot reuse
      it: the effect is to upper-case every character that starts the string
      or follows white space (upper-casing white space changes nothing). */
  function CapitalizeFrom(s: string, afterSpace: bool): string
  {
    if s == [] then []
    else [if afterSpace then UpperChar(s[0]) else s[0]] + CapitalizeFrom(s[1..], IsSpace(s[0]))
  }

  function Capitalize(s: string): string {
    CapitalizeFrom(s, true)
  }

  /** A character starts a word when it is first or follows white space. */
  predicate StartsWord(s: string, i: int)
    requires 0 <= i < |s|
  {
    i == 0 || IsSpace(s[i - 1])
  }

  /** Capitalising changes exactly the characters that start a word, and
      only by upper-casing them. */
  lemma {:induction false} CapitalizeFromAt(s: string, afterSpace: bool)
    ensures |CapitalizeFrom(s, afterSpace)| == |s|
    ensures forall i :: 0 <= i < |s| ==>
      (CapitalizeFrom(s, afterSpace)[i] ==
       if (if i == 0 then afterSpace else IsSpace(s[i - 1])) then UpperChar(s[i]) else s[i])
  {
    if s != [] {
      CapitalizeFromAt(s[1..], IsSpace(s[0]));
      var r := CapitalizeFrom(s, afterSpace);
      forall i | 1 <= i < |s|
        ensures r[i] == if IsSpace(s[i - 1]) then UpperChar(s[i]) else s[i]
      {
        assert r[i] == CapitalizeFrom(s[1..], IsSpace(s[0]))[i - 1];
        assert s[1..][i - 1] == s[i];
        if i >= 2 { assert s[1..][i - 2] == s[i - 1]; }
      }
    }
  }

  lemma CapitalizeAt(s: string)
    ensures |Capitalize(s)| == |s|
    ensures forall i :: 0 <= i < |s| ==> Capitalize(s)[i] == if StartsWord(s, i) then UpperChar(s[i]) else s[i]
  {
    CapitalizeFromAt(s, true);
  }

  /** The badge text: underscores to spaces, lower case, then each word's
      first character in upper case. */
  function Label(normalized: string): string {
    Capitalize(Lower(ReplaceUnderscores(normalized)))
  }

  /** The label has one character per character of the status, holds no
      underscore, and reads each word with an upper-case first letter and
      the rest in lower case; words are split at underscores and white
      space. */
  lemma LabelShape(s: string)
    ensures |Label(s)| == |s|
    ensures forall i :: 0 <= i < |s| ==> Label(s)[i] != '_'
    ensures forall i :: 0 <= i < |s| ==>
      var c := if s[i] == '_' then ' ' else s[i];
      Label(s)[i] == if i == 0 || s[i - 1] == '_' || IsSpace(s[i - 1]) then UpperChar(LowerChar(c)) else LowerChar(c)
  {
    var t := Lower(ReplaceUnderscores(s));
    CapitalizeAt(t);
    forall i | 0 <= i < |s| ensures IsSpace(t[i]) <==> s[i] == '_' || IsSpace(s[i]) {
    }
  }

  /** StatusBadge({ status }). */
  function Render(status: Option<string>): (b: Badge)
    ensures b.cls in StatusColors.Values
    ensures |b.text| == |Normalize(status)|
    ensures forall i :: 0 <= i < |b.text| ==> b.text[i] != '_'
  {
    var normalized := Normalize(status);
    LabelShape(normalized);
    Badge(BadgeClass(normalized), Label(normalized))
  }

  /** A missing or empty status shows as a neutral "Unknown" badge. */
  lemma MissingStatusIsUnknown(status: Option<string>)
    requires !Truthy(status)
    ensures Render(status) == Badge(DefaultClass, "Unknown")
  {
    var l := Label("UNKNOWN");
    LabelShape("UNKNOWN");
    assert l == "Unknown";
  }
}
