/** The naming rule for main-process commands: a plugin's command is kept
    only if its name equals its own upper-cased form (server.js line 82).
    String.prototype.toUpperCase is modelled on ASCII letters. */
module CommandNames {

  predicate IsLower(c: char)
  {
    'a' <= c <= 'z'
  }

  function UpperChar(c: char): char
  {
    if IsLower(c) then (c as int - 32) as char else c
  }

  /** `s.toUpperCase()`: the same length, every letter mapped to its capital. */
  function ToUpper(s: string): string
  {
    seq(|s|, i requires 0 <= i < |s| => UpperChar(s[i]))
  }

  /** `cmd === cmd.toUpperCase()` */
  predicate IsCommandName(s: string)
  {
    s == ToUpper(s)
  }

  /** A name passes the naming rule exactly when it has no lower-case letter. */
  lemma CommandNameIffNoLowercase(s: string)
    ensures IsCommandName(s) <==> forall i :: 0 <= i < |s| ==> !IsLower(s[i])
  {
    if !IsCommandName(s) {
      var i :| 0 <= i < |s| && s[i] != ToUpper(s)[i];
      assert IsLower(s[i]);
    }
  }

  /** A name with a lower-case letter at position `i` is never a command name. */
  lemma LowercaseIsNotCommandName(s: string, i: nat)
    requires i < |s| && IsLower(s[i])
    ensures !IsCommandName(s)
  {
    assert ToUpper(s)[i] != s[i];
  }
}
