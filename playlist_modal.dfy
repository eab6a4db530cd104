/** The create-playlist dialog of `showCreatePlaylistModal`, and
    `String.prototype.trim`, which decides whether Create closes it. */
module PlaylistModal {

  /** The characters `trim` removes: ECMAScript's WhiteSpace (tab, vertical
      tab, form feed, space, no-break space, the byte order mark and the
      Unicode space separators) and LineTerminator (line feed, carriage
      return, line and paragraph separator). */
  predicate IsJsWhitespace(c: char)
  {
    var u := c as int;
    u == 0x09 || u == 0x0A || u == 0x0B || u == 0x0C || u == 0x0D || u == 0x20
    || u == 0xA0 || u == 0x1680 || (0x2000 <= u <= 0x200A) || u == 0x2028 || u == 0x2029
    || u == 0x202F || u == 0x205F || u == 0x3000 || u == 0xFEFF
  }

  /** `s` with its leading white space removed. */
  function TrimStart(s: string): string
  {
    if s != [] && IsJsWhitespace(s[0]) then TrimStart(s[1..]) else s
  }

  /** `s` with its trailing white space removed. */
  function TrimEnd(s: string): string
  {
    if s != [] && IsJsWhitespace(s[|s| - 1]) then TrimEnd(s[..|s| - 1]) else s
  }

  /** `s.trim()`. */
  function Trim(s: string): string
  {
    TrimEnd(TrimStart(s))
  }

  /** `if (playlistName.trim())`: the trimmed name is the empty string, which is falsy. */
  predicate Blank(name: string)
  {
    Trim(name) == []
  }

  /** TrimStart drops a prefix of white space and stops at the first other character. */
  lemma {:induction false} TrimStartDrops(s: string)
    ensures |TrimStart(s)| <= |s| && TrimStart(s) == s[|s| - |TrimStart(s)|..]
    ensures forall i :: 0 <= i < |s| - |TrimStart(s)| ==> IsJsWhitespace(s[i])
    ensures TrimStart(s) != [] ==> !IsJsWhitespace(TrimStart(s)[0])
  {
    if s != [] && IsJsWhitespace(s[0]) {
      var t, r := s[1..], TrimStart(s);
      TrimStartDrops(t);
      assert r == TrimStart(t);
      assert t[|t| - |r|..] == s[|s| - |r|..];
      forall i | 0 <= i < |s| - |r| ensures IsJsWhitespace(s[i]) {
        if i > 0 {
          assert s[i] == t[i - 1];
        }
      }
    }
  }

  /** TrimEnd drops a suffix of white space and stops at the last other character. */
  lemma {:induction false} TrimEndDrops(s: string)
    ensures |TrimEnd(s)| <= |s| && TrimEnd(s) == s[..|TrimEnd(s)|]
    ensures forall i :: |TrimEnd(s)| <= i < |s| ==> IsJsWhitespace(s[i])
    ensures TrimEnd(s) != [] ==> !IsJsWhitespace(TrimEnd(s)[|TrimEnd(s)| - 1])
  {
    if s != [] && IsJsWhitespace(s[|s| - 1]) {
      var t, r := s[..|s| - 1], TrimEnd(s);
      TrimEndDrops(t);
      assert r == TrimEnd(t);
      assert t[..|r|] == s[..|r|];
      forall i | |r| <= i < |s| ensures IsJsWhitespace(s[i]) {
        if i < |s| - 1 {
          assert s[i] == t[i];
        }
      }
    }
  }

  /** A name trims to the empty string exactly when it is all white space. */
  lemma TrimEmptyIffBlank(s: string)
    ensures Blank(s) <==> forall i :: 0 <= i < |s| ==> IsJsWhitespace(s[i])
  {
    var t := TrimStart(s);
    TrimStartDrops(s);
    TrimEndDrops(t);
    if !Blank(s) {
      var r := Trim(s);
      var k := |s| - |t|;
      assert s[k] == t[0] == r[0];
    }
  }

  /** The trimmed name is the piece of the name between its first and last
      characters that are not white space. */
  lemma TrimIsCore(s: string)
    ensures exists a, b :: 0 <= a <= b <= |s| && Trim(s) == s[a..b]
    ensures Trim(s) != [] ==> !IsJsWhitespace(Trim(s)[0]) && !IsJsWhitespace(Trim(s)[|Trim(s)| - 1])
  {
    var t := TrimStart(s);
    TrimStartDrops(s);
    TrimEndDrops(t);
    var a := |s| - |t|;
    assert Trim(s) == s[a..a + |Trim(s)|];
  }

  /** A non-empty trimmed name is not trimmed further. */
  lemma TrimIdempotent(s: string)
    ensures Trim(Trim(s)) == Trim(s)
  {
    var r := Trim(s);
    TrimIsCore(s);
    if r != [] {
      assert TrimStart(r) == r;
    }
  }

  const ErrorBorder := "#e22134"
  const RestBorder := "#333"

  class Modal {
    /** Whether the overlay is attached to the document. */
    var open: bool
    /** Whether the Escape listener is still registered on the document. */
    var escapeListening: bool
    var inputFocused: bool
    /** The inline border colour of the name input. */
    var inputBorder: string

    /** `showCreatePlaylistModal`: the overlay is attached and the Escape
        listener registered; the new input has no inline style yet. */
    constructor ()
      ensures open && escapeListening && !inputFocused && inputBorder == ""
    {
      open := true;
      escapeListening := true;
      inputFocused := false;
      inputBorder := "";
    }

    method Cancel()
      modifies this
      ensures !open
      ensures escapeListening == old(escapeListening)
      ensures inputFocused == old(inputFocused) && inputBorder == old(inputBorder)
    {
      if open {
        open := false;
      }
    }

    /** Create clicked with `name` in the input: a name that is not blank
        closes the overlay; a blank one keeps it open, focuses the input and
        marks it red. */
    method Create(name: string)
      modifies this
      ensures !Blank(name) ==> !open && inputFocused == old(inputFocused) && inputBorder == old(inputBorder)
      ensures Blank(name) ==> open == old(open) && inputFocused && inputBorder == ErrorBorder
      ensures old(open) ==> (open <==> Blank(name))
      ensures escapeListening == old(escapeListening)
    {
      var blank := Blank(name);
      if !blank {
        if open {
          open := false;
        }
      } else {
        inputFocused := true;
        inputBorder := ErrorBorder;
      }
    }

    /** The callback set two seconds after a blank Create. */
    method RestoreBorder()
      modifies this`inputBorder
      ensures inputBorder == RestBorder
    {
      inputBorder := RestBorder;
    }

    /** A key press on the document: Escape closes an open overlay and
        unregisters the listener; once unregistered it sees no more keys. */
    method KeyDown(key: string)
      modifies this
      ensures old(escapeListening) && key == "Escape" && old(open) ==> !open && !escapeListening
      ensures !(old(escapeListening) && key == "Escape" && old(open)) ==> open == old(open) && escapeListening == old(escapeListening)
      ensures inputFocused == old(inputFocused) && inputBorder == old(inputBorder)
    {
      if escapeListening && key == "Escape" && open {
        open := false;
        escapeListening := false;
      }
    }
  }
}
