/**
 * The invitation form (app/components/InvitationForm.tsx): the agent types a comma-separated
 * list of emails; submitting splits it at every comma, trims each piece, hands the seminar id
 * and the list on, and clears the text field. `split(',')` and `trim()` follow JavaScript:
 * splitting keeps empty pieces and always yields at least one, and trimming removes the
 * ECMAScript white-space and line-terminator characters from both ends.
 */
module InvitationFormModel {
  import opened Common

  const SEPARATOR: char := ','

  /** `s.split(',')`. */
  function Split(s: string): (parts: seq<string>)
    ensures |parts| >= 1
    ensures forall i :: 0 <= i < |parts| ==> SEPARATOR !in parts[i]
    decreases |s|
  {
    if s == [] then [""]
    else
      var rest := Split(s[1..]);
      if s[0] == SEPARATOR then [""] + rest else [[s[0]] + rest[0]] + rest[1..]
  }

  /** `parts.join(',')`: the inverse of `Split`. */
  function Join(parts: seq<string>): (s: string)
    ensures |parts| == 1 ==> s == parts[0]
    decreases |parts|
  {
    if |parts| == 0 then ""
    else if |parts| == 1 then parts[0]
    else parts[0] + [SEPARATOR] + Join(parts[1..])
  }

  /** How often `c` occurs in `s`. */
  function Occurrences(s: string, c: char): (n: nat)
    ensures n <= |s|
    ensures n == 0 <==> c !in s
    decreases |s|
  {
    if s == [] then 0 else (if s[0] == c then 1 else 0) + Occurrences(s[1..], c)
  }

  /** The characters `String.prototype.trim` removes: ECMAScript white space and line terminators. */
  predicate IsSpace(c: char) {
    || c == '\U{9}' || c == '\U{A}' || c == '\U{B}' || c == '\U{C}' || c == '\U{D}' || c == '\U{20}'
    || c == '\U{A0}' || c == '\U{1680}' || ('\U{2000}' <= c <= '\U{200A}')
    || c == '\U{2028}' || c == '\U{2029}' || c == '\U{202F}' || c == '\U{205F}' || c == '\U{3000}'
    || c == '\U{FEFF}'
  }

  /** `s` with its leading white space removed. */
  function TrimStart(s: string): (r: string)
    ensures |r| <= |s| && r == s[|s| - |r|..]
    ensures forall k :: 0 <= k < |s| - |r| ==> IsSpace(s[k])
    ensures r != [] ==> !IsSpace(r[0])
    decreases |s|
  {
    if s != [] && IsSpace(s[0]) then TrimStart(s[1..]) else s
  }

  /** `s` with its trailing white space removed. */
  function TrimEnd(s: string): (r: string)
    ensures |r| <= |s| && r == s[..|r|]
    ensures forall k :: |r| <= k < |s| ==> IsSpace(s[k])
    ensures r != [] ==> !IsSpace(r[|r| - 1])
    decreases |s|
  {
    if s != [] && IsSpace(s[|s| - 1]) then TrimEnd(s[..|s| - 1]) else s
  }

  /**
   * `s.trim()`: the piece of `s` between its leading and its trailing white space, which
   * neither starts nor ends with white space.
   */
  function Trim(s: string): (r: string)
    ensures exists i, j :: 0 <= i <= j <= |s| && r == s[i..j]
                           && (forall k :: 0 <= k < i ==> IsSpace(s[k]))
                           && (forall k :: j <= k < |s| ==> IsSpace(s[k]))
    ensures r != [] ==> !IsSpace(r[0]) && !IsSpace(r[|r| - 1])
    ensures forall c :: c in r ==> c in s
  {
    var t := TrimStart(s);
    var r := TrimEnd(t);
    var i := |s| - |t|;
    assert r == s[i..i + |r|];
    assert forall k :: 0 <= k < |r| ==> r[k] == s[i + k];
    r
  }

  /**
   * `emails.split(',').map(email => email.trim())`: one entry per comma-separated segment
   * (empty ones included), in order; no entry holds a comma, and none starts or ends with
   * white space.
   */
  function ParseEmailList(text: string): (emails: seq<string>)
    ensures |emails| == |Split(text)| == Occurrences(text, SEPARATOR) + 1
    ensures forall i :: 0 <= i < |emails| ==> emails[i] == Trim(Split(text)[i])
    ensures forall i :: 0 <= i < |emails| ==> SEPARATOR !in emails[i]
    ensures forall i :: 0 <= i < |emails| && emails[i] != [] ==>
              !IsSpace(emails[i][0]) && !IsSpace(emails[i][|emails[i]| - 1])
  {
    SplitCount(text);
    var parts := Split(text);
    seq(|parts|, i requires 0 <= i < |parts| => Trim(parts[i]))
  }

  // ---------------------------------------------------------------------------------------
  // Properties of the parse

  /** Joining the pieces at commas gives back the text: the pieces are the text's segments, in order. */
  lemma {:induction false} JoinSplit(s: string)
    ensures Join(Split(s)) == s
    decreases |s|
  {
    if s != [] {
      JoinSplit(s[1..]);
      var rest := Split(s[1..]);
      if s[0] == SEPARATOR {
        assert Split(s) == [""] + rest;
        assert ([""] + rest)[1..] == rest;
        assert s == [s[0]] + s[1..];
      } else {
        var parts := [[s[0]] + rest[0]] + rest[1..];
        assert Split(s) == parts;
        assert parts[1..] == rest[1..];
        if |rest| == 1 {
          assert s == [s[0]] + s[1..];
        } else {
          assert Join(rest) == rest[0] + [SEPARATOR] + Join(rest[1..]);
          assert s == [s[0]] + s[1..];
        }
      }
    }
  }

  /** Splitting a comma-joined list of comma-free pieces gives the pieces back. */
  lemma {:induction false} SplitJoin(parts: seq<string>)
    requires |parts| >= 1
    requires forall i :: 0 <= i < |parts| ==> SEPARATOR !in parts[i]
    ensures Split(Join(parts)) == parts
    decreases |parts|
  {
    if |parts| == 1 {
      SplitNoSeparator(parts[0]);
    } else {
      SplitJoin(parts[1..]);
      SplitPrefix(parts[0], Join(parts[1..]));
      assert Join(parts) == parts[0] + [SEPARATOR] + Join(parts[1..]);
      assert [parts[0]] + parts[1..] == parts;
    }
  }

  /** A comma-free text is one piece. */
  lemma {:induction false} SplitNoSeparator(p: string)
    requires SEPARATOR !in p
    ensures Split(p) == [p]
    decreases |p|
  {
    if p != [] {
      SplitNoSeparator(p[1..]);
      assert [p[0]] + p[1..] == p;
    }
  }

  /** A comma-free piece before a comma becomes the first piece of the split. */
  lemma {:induction false} SplitPrefix(p: string, tail: string)
    requires SEPARATOR !in p
    ensures Split(p + [SEPARATOR] + tail) == [p] + Split(tail)
    decreases |p|
  {
    if p == [] {
      assert p + [SEPARATOR] + tail == [SEPARATOR] + tail;
      assert ([SEPARATOR] + tail)[1..] == tail;
    } else {
      SplitPrefix(p[1..], tail);
      var s := p + [SEPARATOR] + tail;
      assert s[0] == p[0] && s[1..] == p[1..] + [SEPARATOR] + tail;
      assert [p[0]] + p[1..] == p;
    }
  }

  /** There is one piece more than there are commas. */
  lemma {:induction false} SplitCount(s: string)
    ensures |Split(s)| == Occurrences(s, SEPARATOR) + 1
    decreases |s|
  {
    if s != [] {
      SplitCount(s[1..]);
    }
  }

  /** Trimming twice is trimming once. */
  lemma TrimIdempotent(s: string)
    ensures Trim(Trim(s)) == Trim(s)
  {
    var t := Trim(s);
    TrimmedIsFixed(t);
  }

  /** A text that neither starts nor ends with white space is its own trim. */
  lemma TrimmedIsFixed(t: string)
    requires t != [] ==> !IsSpace(t[0]) && !IsSpace(t[|t| - 1])
    ensures Trim(t) == t
  {
    assert TrimStart(t) == t;
    assert TrimEnd(t) == t;
  }

  /**
   * A list of trimmed, comma-free, non-empty addresses survives being typed into the form
   * joined by commas: the parse gives the same list back.
   */
  lemma {:induction false} ParseJoined(emails: seq<string>)
    requires |emails| >= 1
    requires forall i :: 0 <= i < |emails| ==> SEPARATOR !in emails[i] && Trim(emails[i]) == emails[i]
    ensures ParseEmailList(Join(emails)) == emails
  {
    SplitJoin(emails);
  }

  // ---------------------------------------------------------------------------------------
  // The component

  /** The form's props and its `emails` state. */
  class InvitationForm {
    const seminarId: Id
    var emails: string

    /** A form for one seminar, with an empty text field. */
    constructor (seminarId: Id)
      ensures this.seminarId == seminarId && emails == ""
    {
      this.seminarId := seminarId;
      emails := "";
    }

    /** The text field's `onChange`. */
    method Edit(value: string)
      modifies this
      ensures emails == value
    {
      emails := value;
    }

    /**
     * `handleSubmit`: what it hands to `onSendInvitations`, the seminar id and the parsed
     * list, after which the text field is empty.
     */
    method HandleSubmit() returns (sentSeminarId: Id, sentEmails: seq<string>)
      modifies this
      ensures sentSeminarId == seminarId
      ensures sentEmails == ParseEmailList(old(emails))
      ensures emails == ""
    {
      sentEmails := ParseEmailList(emails);
      sentSeminarId := seminarId;
      emails := "";
    }
  }
}
