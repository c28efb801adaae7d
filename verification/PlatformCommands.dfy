/** Slash commands the manager answers itself, and why coalescing never creates one. */
module PlatformCommands {
  import opened Options
  import opened Messages

  datatype PlatformCommand = New | Cancel

  /** The text before the first '@', or all of it: the bot mention is cut off. */
  function BeforeAt(text: string): string {
    if text == "" || text[0] == '@' then "" else [text[0]] + BeforeAt(text[1..])
  }

  function MatchPlatformCommand(text: string): Option<PlatformCommand> {
    var command := BeforeAt(text);
    if command == "/new" then Some(New)
    else if command == "/cancel" then Some(Cancel)
    else None
  }

  function ExtractCommandText(content: seq<ContentPart>): Option<string> {
    if |content| == 1 && content[0].Text? then Some(content[0].text) else None
  }

  function CommandOf(content: seq<ContentPart>): Option<PlatformCommand> {
    match ExtractCommandText(content)
    case None => None
    case Some(text) => MatchPlatformCommand(text)
  }

  /** The message is a single text part, and that text is `name`, alone or followed by "@...". */
  predicate IsLone(content: seq<ContentPart>, name: string) {
    && |content| == 1 && content[0].Text?
    && (content[0].text == name || name + "@" <= content[0].text)
  }

  /** What makes a whole message a command. */
  lemma CommandMeaning(content: seq<ContentPart>)
    ensures CommandOf(content) == Some(New) <==> IsLone(content, "/new")
    ensures CommandOf(content) == Some(Cancel) <==> IsLone(content, "/cancel")
  {
    if |content| == 1 && content[0].Text? {
      BeforeAtMeaning(content[0].text, "/new");
      BeforeAtMeaning(content[0].text, "/cancel");
    }
  }

  /** Queued payloads are exactly those that are not a command on their own. */
  predicate NoCommands(ps: seq<Payload>) {
    forall i :: 0 <= i < |ps| ==> CommandOf(ps[i].content).None?
  }

  /** A text is a command exactly when it is "/new" or "/cancel", alone or followed by "@...". */
  lemma MatchMeaning(text: string)
    ensures MatchPlatformCommand(text) == Some(New)
       <==> text == "/new" || (5 <= |text| && text[..5] == "/new@")
    ensures MatchPlatformCommand(text) == Some(Cancel)
       <==> text == "/cancel" || (8 <= |text| && text[..8] == "/cancel@")
  {
    BeforeAtMeaning(text, "/new");
    BeforeAtMeaning(text, "/cancel");
    assert "/new" + "@" == "/new@" && "/cancel" + "@" == "/cancel@";
  }

  lemma {:induction false} BeforeAtMeaning(text: string, name: string)
    requires '@' !in name
    ensures BeforeAt(text) == name
       <==> text == name || (|name| < |text| && text[..|name| + 1] == name + "@")
  {
    if text == "" || text[0] == '@' {
      if name != "" && |name| < |text| {
        assert text[..|name| + 1][0] != (name + "@")[0];
      }
    } else if name == "" {
      assert text[..1] == [text[0]] != ['@'] == name + "@";
    } else {
      BeforeAtMeaning(text[1..], name[1..]);
      if BeforeAt(text) == name {
        assert BeforeAt(text)[1..] == BeforeAt(text[1..]);
        if text[1..] != name[1..] {
          assert text[..|name| + 1] == [text[0]] + text[1..][..|name|];
          assert name + "@" == [name[0]] + (name[1..] + "@");
        } else {
          assert text == [text[0]] + text[1..] && name == [name[0]] + name[1..];
        }
      }
      if text == name || (|name| < |text| && text[..|name| + 1] == name + "@") {
        if text != name {
          assert text[0] == text[..|name| + 1][0] == (name + "@")[0];
          assert text[1..][..|name|] == text[..|name| + 1][1..] == (name + "@")[1..] == name[1..] + "@";
        }
        assert name == [name[0]] + name[1..];
      }
    }
  }

  /** Merging payloads that are not commands never yields a command, empty payloads included. */
  lemma {:induction false} CoalescingIsPlain(ps: seq<Payload>)
    requires NoCommands(ps)
    ensures CommandOf(Flatten(ps)).None?
  {
    if |Flatten(ps)| == 1 {
      SingletonSource(ps);
    }
  }

  /** One part after merging means one payload brought exactly that part. */
  lemma {:induction false} SingletonSource(ps: seq<Payload>)
    requires |Flatten(ps)| == 1
    ensures exists i :: 0 <= i < |ps| && ps[i].content == Flatten(ps)
  {
    var n := |ps| - 1;
    if ps[n].content == [] {
      SingletonSource(ps[..n]);
      var i :| 0 <= i < n && ps[..n][i].content == Flatten(ps[..n]);
      assert ps[i].content == Flatten(ps);
    } else {
      assert Flatten(ps[..n]) == [];
      assert ps[n].content == Flatten(ps);
    }
  }
}
