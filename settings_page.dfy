/** The account page's avatar fallback: the user's initials. */
module SettingsPage {
  import opened Wrappers
  import opened JsString

  /** `userData?.full_name || user.email || ""`. */
  function DisplayName(fullName: Option<string>, email: Option<string>): (r: string)
    ensures fullName.Some? && fullName.value != "" ==> r == fullName.value
    ensures !(fullName.Some? && fullName.value != "") && email.Some? ==> r == email.value
    ensures !(fullName.Some? && fullName.value != "") && email.None? ==> r == ""
  {
    if fullName.Some? && fullName.value != "" then fullName.value
    else if email.Some? && email.value != "" then email.value
    else ""
  }

  /** `.map((name) => name[0]).join("")`: the first character of each piece; an empty piece
      gives `undefined`, which `join` renders as nothing. */
  function Heads(pieces: seq<string>): (r: string)
    ensures |r| <= |pieces|
  {
    if pieces == [] then ""
    else (if pieces[0] == "" then "" else [pieces[0][0]]) + Heads(pieces[1..])
  }

  /** The non-empty pieces, in order: the reference the initials are read from. */
  function Words(pieces: seq<string>): (r: seq<string>)
    ensures forall k :: 0 <= k < |r| ==> r[k] != ""
  {
    if pieces == [] then []
    else (if pieces[0] == "" then [] else [pieces[0]]) + Words(pieces[1..])
  }

  /** The heads are the first characters of the words, one each, in order. */
  lemma {:induction false} HeadsOfWords(pieces: seq<string>)
    ensures |Heads(pieces)| == |Words(pieces)|
    ensures forall k :: 0 <= k < |Heads(pieces)| ==> Heads(pieces)[k] == Words(pieces)[k][0]
  {
    if pieces != [] {
      HeadsOfWords(pieces[1..]);
      var h := if pieces[0] == "" then "" else [pieces[0][0]];
      var w := if pieces[0] == "" then [] else [pieces[0]];
      assert Heads(pieces) == h + Heads(pieces[1..]);
      assert Words(pieces) == w + Words(pieces[1..]);
      forall k | 0 <= k < |Heads(pieces)|
        ensures Heads(pieces)[k] == Words(pieces)[k][0]
      {
        if k >= |h| {
          assert Heads(pieces)[k] == Heads(pieces[1..])[k - |h|];
          assert Words(pieces)[k] == Words(pieces[1..])[k - |w|];
        }
      }
    }
  }

  /** `.split(" ") ... .toUpperCase().substring(0, 2)`. */
  function Initials(name: string): (r: string)
    ensures |r| <= 2
  {
    Take(ToUpperAscii(Heads(Split(name, ' '))), 2)
  }

  /** The initials are the upper-cased first characters of the first two space-separated
      words, in order: one character for a single word, later words ignored. */
  lemma InitialsAreWordHeads(name: string)
    ensures var words := Words(Split(name, ' '));
      |Initials(name)| == (if |words| < 2 then |words| else 2)
      && forall k :: 0 <= k < |Initials(name)| ==> Initials(name)[k] == UpperChar(words[k][0])
  {
    var heads := Heads(Split(name, ' '));
    HeadsOfWords(Split(name, ' '));
    forall k | 0 <= k < |Initials(name)|
      ensures Initials(name)[k] == UpperChar(Words(Split(name, ' '))[k][0])
    {
      ToUpperAt(heads, k);
    }
  }
}
