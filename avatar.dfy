/** The avatar's fallback initials and what it draws
    (`src/components/ui/Avatar.tsx`). */
module Avatar {
  import opened Common

  /** `words.map(n => n[0]).join('')`: the first character of each word; an
      empty word contributes nothing, as `undefined` joins as ''. */
  function Heads(words: seq<string>): (r: string)
    ensures |r| <= |words|
  {
    if words == [] then []
    else (if words[0] == [] then [] else [words[0][0]]) + Heads(words[1..])
  }

  /** The characters of s that begin a word: not a space, and first or after
      a space (`atStart` says whether the position before s counts as a
      space). */
  function WordStarts(s: string, atStart: bool): (r: string)
    ensures |r| <= |s|
    ensures forall i :: 0 <= i < |r| ==> r[i] != ' ' && r[i] in s
  {
    if s == [] then []
    else (if atStart && s[0] != ' ' then [s[0]] else []) + WordStarts(s[1..], s[0] == ' ')
  }

  /** Splitting on spaces and taking each word's first character picks out
      exactly the word starts. */
  lemma {:induction false} HeadsOfSplit(s: string)
    ensures Heads(SplitOn(s, ' ')) == WordStarts(s, true)
    ensures Heads(SplitOn(s, ' ')[1..]) == WordStarts(s, false)
  {
    if s != [] {
      var t := SplitOn(s[1..], ' ');
      HeadsOfSplit(s[1..]);
      if s[0] == ' ' {
        assert SplitOn(s, ' ') == [""] + t;
        assert (([""] + t)[1..]) == t;
      } else {
        var r := SplitOn(s, ' ');
        assert r == [[s[0]] + t[0]] + t[1..];
        assert r[1..] == t[1..];
        assert Heads(r) == [s[0]] + Heads(r[1..]);
      }
    }
  }

  function Min(a: nat, b: nat): nat { if a < b then a else b }

  /** The initials shown for a fallback name: none without a name (or with
      an empty one); otherwise the upper-cased first letters of its
      space-separated words, at most two of them. */
  function Initials(fallback: Option<string>): (r: Option<string>)
    ensures fallback.None? || fallback == Some("") ==> r.None?
    ensures fallback.Some? && fallback.value != "" ==>
              var starts := ToUpper(WordStarts(fallback.value, true));
              r == Some(starts[..Min(2, |starts|)])
  {
    match fallback
    case None => None
    case Some(f) =>
      if f == "" then None
      else
        HeadsOfSplit(f);
        var letters := ToUpper(Heads(SplitOn(f, ' ')));
        Some(letters[..Min(2, |letters|)])
  }

  /** Initials are at most two characters, none of them a space; a name
      made only of spaces gives empty initials. */
  lemma InitialsShape(fallback: string)
    requires fallback != ""
    ensures |Initials(Some(fallback)).value| <= 2
    ensures forall i :: 0 <= i < |Initials(Some(fallback)).value| ==> Initials(Some(fallback)).value[i] != ' '
    ensures (forall i :: 0 <= i < |fallback| ==> fallback[i] == ' ') ==> Initials(Some(fallback)).value == ""
  {
    var w := WordStarts(fallback, true);
    if forall i :: 0 <= i < |fallback| ==> fallback[i] == ' ' {
      if w != [] {
        assert w[0] in fallback;
      }
    }
  }

  /** What the avatar draws. */
  datatype Render = Image(src: string) | InitialsText(text: string) | UserIcon

  /** The image when a non-empty source is given; else the initials when
      they are non-empty; else the user icon. */
  function RenderChoice(src: Option<string>, fallback: Option<string>): (r: Render)
    ensures r.Image? <==> src.Some? && src.value != ""
    ensures r.InitialsText? ==> Some(r.text) == Initials(fallback) && r.text != ""
    ensures r == UserIcon <==> (src.None? || src.value == "") && (Initials(fallback).None? || Initials(fallback) == Some(""))
  {
    if src.Some? && src.value != "" then Image(src.value)
    else
      var initials := Initials(fallback);
      if initials.Some? && initials.value != "" then InitialsText(initials.value) else UserIcon
  }
}
