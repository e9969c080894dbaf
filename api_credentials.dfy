/** The API-credentials window: two entry fields for the client id and the client secret, the
    `config.conf` file that remembers them between runs, and the callback that hands accepted
    credentials to the server. Widgets, message boxes and the callback are recorded as state and
    events; the file is its text, or `None` when it cannot be opened. */
module ApiCredentials {
  import opened PyBuiltins

  /** The exact length both the client id and the client secret must have. */
  const CREDENTIAL_LENGTH := 32

  predicate IsLineBreak(c: char)
  {
    c == '\n' || c == '\r'
  }

  predicate NoLineBreak(s: string)
  {
    forall i :: 0 <= i < |s| ==> !IsLineBreak(s[i])
  }

  /** `file.readline()` on a file opened in text mode, where `\n`, `\r` and `\r\n` all end a
      line: the line without its terminator, and the text after it. At the end of the file the
      line is empty. */
  function ReadLine(s: string): (r: (string, string))
    ensures NoLineBreak(r.0)
    ensures |r.0| <= |s| && s[..|r.0|] == r.0
    ensures |r.0| < |s| ==> IsLineBreak(s[|r.0|])
  {
    if s == [] then ("", "")
    else if s[0] == '\n' then ("", s[1..])
    else if s[0] == '\r' then ("", if |s| > 1 && s[1] == '\n' then s[2..] else s[1..])
    else
      var next := ReadLine(s[1..]);
      assert s[1..][..|next.0|] == s[1..|next.0| + 1];
      ([s[0]] + next.0, next.1)
  }

  /** What `readline` leaves for the next read: nothing at the end of the text, and otherwise
      exactly the text after the line break that ended the line. */
  lemma {:induction false} ReadLineRest(s: string)
    ensures var r := ReadLine(s);
            && (|r.0| == |s| ==> r.1 == [])
            && (|r.0| < |s| ==> r.1 == s[|r.0| + BreakLength(s, |r.0|)..])
  {
    if s != [] && !IsLineBreak(s[0]) {
      var t := s[1..];
      ReadLineRest(t);
      var next := ReadLine(t);
      assert ReadLine(s) == ([s[0]] + next.0, next.1);
      var n := |next.0|;
      if n < |t| {
        var b := BreakLength(t, n);
        assert b == BreakLength(s, n + 1);
        assert t[n + b..] == s[n + 1 + b..];
      }
    }
  }

  /** The length of the line break at `s[i]`: two for `\r\n`, one for a lone `\n` or `\r`. */
  function BreakLength(s: string, i: nat): (n: nat)
    requires i < |s|
    ensures 1 <= n <= |s| - i
  {
    if s[i] == '\r' && i + 1 < |s| && s[i + 1] == '\n' then 2 else 1
  }

  /** The three line endings a text-mode read recognises. */
  predicate IsNewline(nl: string)
  {
    nl == "\n" || nl == "\r\n" || nl == "\r"
  }

  /** What `load_api_credentials_from_file` accepts from the file's text: the first two lines,
      stripped, when both are exactly 32 characters long. */
  function ParseConfig(content: string): (r: Option<(string, string)>)
    ensures r.Some? ==> |r.value.0| == CREDENTIAL_LENGTH && |r.value.1| == CREDENTIAL_LENGTH
  {
    var (first, rest) := ReadLine(content);
    var (second, _) := ReadLine(rest);
    var id := Strip(STR_SPACE, first);
    var secret := Strip(STR_SPACE, second);
    if |id| == CREDENTIAL_LENGTH && |secret| == CREDENTIAL_LENGTH then Some((id, secret)) else None
  }

  /** The file is accepted exactly when both stripped first lines have length 32, and then the
      pair is those two stripped lines. */
  lemma ParseConfigAccepts(content: string)
    ensures var first := ReadLine(content);
            var second := ReadLine(first.1);
            && (ParseConfig(content).Some? <==> |Strip(STR_SPACE, first.0)| == CREDENTIAL_LENGTH
                                                && |Strip(STR_SPACE, second.0)| == CREDENTIAL_LENGTH)
            && (ParseConfig(content).Some? ==> ParseConfig(content).value == (Strip(STR_SPACE, first.0), Strip(STR_SPACE, second.0)))
  {
  }

  /** What `get_credentials` writes: one line per value. */
  function Serialize(id: string, secret: string): (content: string)
    ensures |content| == |id| + |secret| + 2
  {
    id + "\n" + secret + "\n"
  }

  /** The form check of `check_credentials`: both values exactly 32 characters long. */
  predicate WellFormed(id: string, secret: string)
  {
    |id| == CREDENTIAL_LENGTH && |secret| == CREDENTIAL_LENGTH
  }

  /** A value that survives the file unchanged: no line break inside, no whitespace at either end. */
  predicate Unpadded(s: string)
  {
    NoLineBreak(s) && (s == [] || (!IsSpace(s[0]) && !IsSpace(s[|s| - 1])))
  }

  /** Reading a line written with any of the three line endings gives back the line and what
      followed it (a lone `\r` only when what follows does not start with `\n`, which would make
      the pair one `\r\n`). */
  lemma {:induction false} ReadWrittenLine(line: string, nl: string, after: string)
    requires NoLineBreak(line) && IsNewline(nl)
    requires nl == "\r" && after != [] ==> after[0] != '\n'
    ensures ReadLine(line + nl + after) == (line, after)
  {
    var s := line + nl + after;
    if line == [] {
      assert s == nl + after;
      if nl == "\r\n" {
        assert s[0] == '\r' && s[1] == '\n' && s[2..] == after;
      } else {
        assert s[0] == nl[0] && s[1..] == after;
      }
    } else {
      assert s[0] == line[0] && !IsLineBreak(line[0]);
      assert s[1..] == line[1..] + nl + after;
      ReadWrittenLine(line[1..], nl, after);
      assert [line[0]] + line[1..] == line;
    }
  }

  /** The file as written on a platform whose text mode ends lines with `nl`. */
  function WrittenWith(id: string, secret: string, nl: string): string
  {
    id + nl + secret + nl
  }

  /** Saving two well-formed values that contain no line break and have no surrounding whitespace,
      then loading the file, gives back the same two values. */
  lemma RoundTrip(id: string, secret: string)
    requires WellFormed(id, secret) && Unpadded(id) && Unpadded(secret)
    ensures ParseConfig(Serialize(id, secret)) == Some((id, secret))
  {
    RoundTripOnDisk(id, secret, "\n");
  }

  /** The same round trip whichever line ending the platform's text mode writes (`\r\n` on
      Windows): reading recognises all three. */
  lemma RoundTripOnDisk(id: string, secret: string, nl: string)
    requires WellFormed(id, secret) && Unpadded(id) && Unpadded(secret) && IsNewline(nl)
    ensures ParseConfig(WrittenWith(id, secret, nl)) == Some((id, secret))
  {
    ReadWrittenLine(id, nl, secret + nl);
    assert id + nl + secret + nl == id + nl + (secret + nl);
    ReadWrittenLine(secret, nl, "");
    assert secret + nl == secret + nl + "";
    StripUnchanged(STR_SPACE, id);
    StripUnchanged(STR_SPACE, secret);
  }

  /** The form check lets through a value that starts with a space, but the file keeps it only
      until the next load: stripping shortens it below 32 and the saved pair is not loaded. */
  lemma LeadingSpaceIsNotReloaded(id: string, secret: string)
    requires WellFormed(id, secret)
    requires NoLineBreak(id) && NoLineBreak(secret)
    requires id[0] == ' '
    ensures ParseConfig(Serialize(id, secret)) == None
  {
    ReadWrittenLine(id, "\n", secret + "\n");
    assert id + "\n" + secret + "\n" == id + "\n" + (secret + "\n");
    StripCutsOnlySpace(STR_SPACE, id);
    var s := Strip(STR_SPACE, id);
    var i, j :| 0 <= i <= j <= |id| && s == id[i..j] && AllBlank(STR_SPACE, id, 0, i) && AllBlank(STR_SPACE, id, j, |id|);
    assert id[0] in STR_SPACE;
  }

  /** `config.conf` on disk: its text, or `None` when it cannot be opened for reading. */
  class ConfigFile {
    var content: Option<string>

    constructor (content: Option<string>)
      ensures this.content == content
    {
      this.content := content;
    }
  }

  /** What the window does besides changing its fields: the message printed when the file
      cannot be read, the error box for malformed input, and the call
      `update_api_credentials(id, secret, destroy_window)`. */
  datatype WindowEvent =
    | LoadErrorPrinted
    | InvalidCredentialsShown
    | CredentialsHandedOver(id: string, secret: string)

  class ApiCredentialsWindow {
    var clientIdEntry: string
    var clientSecretEntry: string
    var events: seq<WindowEvent>

    /** The window as `__init__` builds it, before it loads the file: both entries empty. */
    constructor ()
      ensures clientIdEntry == "" && clientSecretEntry == "" && events == []
    {
      clientIdEntry, clientSecretEntry, events := "", "", [];
    }

    /** `load_api_credentials_from_file`: a file that cannot be opened is reported and ignored;
        a readable file fills the entries only when both stripped lines have length 32.
        `insert(0, text)` puts the text in front of what an entry already holds. */
    method LoadApiCredentialsFromFile(file: ConfigFile)
      modifies this
      ensures file.content.None? ==>
                clientIdEntry == old(clientIdEntry) && clientSecretEntry == old(clientSecretEntry)
                && events == old(events) + [LoadErrorPrinted]
      ensures file.content.Some? && ParseConfig(file.content.value).None? ==>
                clientIdEntry == old(clientIdEntry) && clientSecretEntry == old(clientSecretEntry)
                && events == old(events)
      ensures file.content.Some? && ParseConfig(file.content.value).Some? ==>
                var (id, secret) := ParseConfig(file.content.value).value;
                clientIdEntry == id + old(clientIdEntry) && clientSecretEntry == secret + old(clientSecretEntry)
                && events == old(events)
    {
      if file.content.None? {
        events := events + [LoadErrorPrinted];
        return;
      }
      var parsed := ParseConfig(file.content.value);
      if parsed.Some? {
        var (id, secret) := parsed.value;
        clientIdEntry := id + clientIdEntry;
        clientSecretEntry := secret + clientSecretEntry;
      }
    }

    /** `check_credentials`: save and hand over well-formed input, otherwise show the error box
        and leave the file alone. */
    method CheckCredentials(file: ConfigFile)
      modifies this, file
      ensures clientIdEntry == old(clientIdEntry) && clientSecretEntry == old(clientSecretEntry)
      ensures WellFormed(clientIdEntry, clientSecretEntry) ==>
                file.content == Some(Serialize(clientIdEntry, clientSecretEntry))
                && events == old(events) + [CredentialsHandedOver(clientIdEntry, clientSecretEntry)]
      ensures !WellFormed(clientIdEntry, clientSecretEntry) ==>
                file.content == old(file.content) && events == old(events) + [InvalidCredentialsShown]
    {
      if WellFormed(clientIdEntry, clientSecretEntry) {
        GetCredentials(file);
      } else {
        events := events + [InvalidCredentialsShown];
      }
    }

    /** `get_credentials`: overwrite the file with the two entries, one per line, then pass the
        same two values to the callback. */
    method GetCredentials(file: ConfigFile)
      modifies this, file
      ensures clientIdEntry == old(clientIdEntry) && clientSecretEntry == old(clientSecretEntry)
      ensures file.content == Some(Serialize(clientIdEntry, clientSecretEntry))
      ensures events == old(events) + [CredentialsHandedOver(clientIdEntry, clientSecretEntry)]
    {
      var id := clientIdEntry;
      var secret := clientSecretEntry;
      file.content := Some(Serialize(id, secret));
      events := events + [CredentialsHandedOver(id, secret)];
    }
  }

  /** The window of the next run, built over a file that holds a saved pair: the entries come
      back as they were saved. */
  method ReloadSaved(file: ConfigFile, id: string, secret: string) returns (next: ApiCredentialsWindow)
    requires WellFormed(id, secret) && Unpadded(id) && Unpadded(secret)
    requires file.content == Some(Serialize(id, secret))
    ensures next.clientIdEntry == id && next.clientSecretEntry == secret
  {
    RoundTrip(id, secret);
    next := new ApiCredentialsWindow();
    next.LoadApiCredentialsFromFile(file);
    assert id + "" == id && secret + "" == secret;
  }

  /** Credentials accepted in one run come back in the entries of the next run's window, as long
      as they hold no whitespace at either end and no line break. */
  method SaveThenReload(window: ApiCredentialsWindow, file: ConfigFile) returns (next: ApiCredentialsWindow)
    requires WellFormed(window.clientIdEntry, window.clientSecretEntry)
    requires Unpadded(window.clientIdEntry) && Unpadded(window.clientSecretEntry)
    modifies window, file
    ensures next.clientIdEntry == window.clientIdEntry && next.clientSecretEntry == window.clientSecretEntry
  {
    window.CheckCredentials(file);
    next := ReloadSaved(file, window.clientIdEntry, window.clientSecretEntry);
  }
}
