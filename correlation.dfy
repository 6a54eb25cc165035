/** The correlation convention: a mirror event created by the bot carries the source
    uid as the text after the last '#' of its description. */
module Correlation {
  import opened Events

  /** Splits `s` at the last occurrence of `c` into the text before and the text after it;
      None when `c` does not occur. */
  function RSplitOnce(s: string, c: char): (r: Option<(string, string)>)
    ensures r.None? <==> c !in s
    ensures r.Some? ==> s == r.value.0 + [c] + r.value.1 && c !in r.value.1
    decreases |s|
  {
    if s == [] then None
    else
      var init, last := s[..|s| - 1], s[|s| - 1];
      assert s == init + [last];
      if last == c then Some((init, []))
      else
        match RSplitOnce(init, c)
        case None => None
        case Some(p) => Some((p.0, p.1 + [last]))
  }

  /** The split is the only one whose right part is free of `c`. */
  lemma {:induction false} RSplitOnceUnique(before: string, c: char, after: string)
    requires c !in after
    ensures RSplitOnce(before + [c] + after, c) == Some((before, after))
    decreases |after|
  {
    var s := before + [c] + after;
    if after == [] {
      assert s[..|s| - 1] == before;
    } else {
      var init := after[..|after| - 1];
      assert after == init + [after[|after| - 1]];
      assert s[..|s| - 1] == before + [c] + init;
      RSplitOnceUnique(before, c, init);
    }
  }

  /** The correlation key of a mirror event's description. */
  function Key(description: string): (k: string)
    ensures '#' !in description ==> k == ""
    ensures '#' in description ==>
      && |k| < |description|
      && description[|description| - |k| - 1] == '#'
      && description[|description| - |k|..] == k
      && '#' !in k
  {
    match RSplitOnce(description, '#')
    case None => ""
    case Some(p) => p.1
  }

  /** A description ending in "#" followed by a '#'-free uid yields that uid back. */
  lemma KeyRoundTrip(text: string, uid: string)
    requires '#' !in uid
    ensures Key(text + "#" + uid) == uid
  {
    RSplitOnceUnique(text, '#', uid);
  }
}
