/** The ticket-close handler of the Discord bot (events/ticketClose.js):
    where the ticket code comes from, which reply each button press gets,
    and the plain-text transcript saved when a ticket is closed. The
    Discord calls themselves are replaced by their outcomes. */
module TicketClose {
  import opened Options
  import opened Text

  // ---- The ticket code ----

  /** The separator of a ticket thread's name. */
  const Sep: string := " - "

  /** `channel.name.split(' - ')[1]`, when it is truthy (events/ticketClose.js:41-42). */
  function TicketCode(name: string): (r: Option<string>)
    ensures r.Some? <==> |Split(name, Sep)| >= 2 && Split(name, Sep)[1] != ""
    ensures r.Some? ==> r.value != "" && !Contains(r.value, Sep)
  {
    var pieces := Split(name, Sep);
    if |pieces| >= 2 && pieces[1] != "" then Some(pieces[1]) else None
  }

  /** No " - " in the name, no ticket. */
  lemma NoSeparatorNoTicket(name: string)
    requires !Contains(name, Sep)
    ensures TicketCode(name) == None
  {
    SplitsIffContains(name, Sep);
  }

  /** The ticket code is the text between the first " - " of the name and
      the next one (or the end): the name is the text before the first
      separator, the separator, the code, and then nothing or another
      separator. */
  lemma TicketCodeLocation(name: string)
    requires TicketCode(name).Some?
    ensures var p := Split(name, Sep);
      && !Contains(p[0], Sep)
      && name == p[0] + Sep + TicketCode(name).value + (if |p| > 2 then Sep + Join(p[2..], Sep) else "")
  {
    var p := Split(name, Sep);
    assert Join(p, Sep) == p[0] + Sep + Join(p[1..], Sep);
    if |p| > 2 {
      assert Join(p[1..], Sep) == p[1] + Sep + Join(p[2..], Sep);
      assert p[1..][1..] == p[2..];
    }
  }

  /** A name made of a prefix, the separator and a code yields that code
      back, provided the first separator of the name is the one after the
      prefix and the code is non-empty and holds no separator. */
  lemma TicketCodeOfName(prefix: string, code: string)
    requires forall k: nat :: k < |prefix| ==> !HasAt(prefix + Sep + code, Sep, k)
    requires code != "" && !Contains(code, Sep)
    ensures TicketCode(prefix + Sep + code) == Some(code)
  {
    SplitAtFirst(prefix, Sep, code);
    SplitsIffContains(code, Sep);
    assert Join(Split(code, Sep), Sep) == Split(code, Sep)[0];
  }

  // ---- The dispatch ----

  /** What the handler reads of an interaction: whether it is a button
      press, whether its channel is a thread, the channel's name and the
      button's customId. */
  datatype Interaction = Interaction(isButton: bool, inThread: bool, channelName: string, customId: string)

  /** One message of the ticket thread: `stamp` is the rendered creation
      time, `tag` the author's tag. */
  datatype Attachment = Attachment(name: string, url: string)
  datatype Embed = Embed(title: Option<string>, description: Option<string>)
  datatype ChatMessage = ChatMessage(stamp: string, tag: string, content: string,
                                     attachments: seq<Attachment>, embeds: seq<Embed>)

  /** What a button press ends in. */
  datatype Outcome =
    | NoReply                                  // returned without replying
    | Denied                                   // the team-only refusal
    | ConfirmPrompt(code: string)              // the "close this ticket?" prompt
    | Closed(code: string, transcript: string) // transcript saved, ticket closed
    | TranscriptFailed(code: string)           // the inner catch's follow-up
    | Cancelled                                // the cancellation notice
    | ErrorReply                               // the outer catch's reply

  const CloseTicket: string := "close_ticket"
  const ConfirmClose: string := "confirm_close"
  const CancelClose: string := "cancel_close"

  /** The interaction is a button press in a thread whose name has a ticket
      code (events/ticketClose.js:37-42). */
  predicate OnTicket(i: Interaction) {
    i.isButton && i.inThread && TicketCode(i.channelName).Some?
  }

  /** execute (events/ticketClose.js:35-239). `member` is the outcome of
      fetching the presser's guild member: None when the fetch threw,
      otherwise whether the member has the team role. `fetched` is the
      outcome of fetching the thread's messages (newest first; None when the
      fetch threw) and `saved` whether saving the transcript succeeded; the
      Discord sends after the save are taken to succeed. */
  function Execute(i: Interaction, member: Option<bool>, fetched: Option<seq<ChatMessage>>, saved: bool): (r: Outcome)
    ensures !OnTicket(i) ==> r == NoReply
    ensures OnTicket(i) && member.None? ==> r == ErrorReply
    ensures r == Denied <==>
              OnTicket(i) && member == Some(false) && (i.customId == CloseTicket || i.customId == ConfirmClose)
    ensures r.ConfirmPrompt? <==> OnTicket(i) && member == Some(true) && i.customId == CloseTicket
    ensures r == Cancelled <==> OnTicket(i) && member.Some? && i.customId == CancelClose
    ensures r.Closed? <==> OnTicket(i) && member == Some(true) && i.customId == ConfirmClose && fetched.Some? && saved
    ensures r.TranscriptFailed? <==>
              OnTicket(i) && member == Some(true) && i.customId == ConfirmClose && (fetched.None? || !saved)
    ensures r.ConfirmPrompt? || r.Closed? || r.TranscriptFailed? ==> r.code == TicketCode(i.channelName).value
    ensures r.Closed? ==> r.transcript == Transcript(fetched.value)
    ensures OnTicket(i) && member.Some? && i.customId !in {CloseTicket, ConfirmClose, CancelClose} ==> r == NoReply
  {
    if !i.isButton || !i.inThread then NoReply
    else
      var code := TicketCode(i.channelName);
      if code.None? then NoReply
      else if member.None? then ErrorReply
      else
        var hasTeamRole := member.value;
        if i.customId == CloseTicket then
          if !hasTeamRole then Denied else ConfirmPrompt(code.value)
        else if i.customId == ConfirmClose then
          if !hasTeamRole then Denied
          else if fetched.None? || !saved then TranscriptFailed(code.value)
          else Closed(code.value, Transcript(fetched.value))
        else if i.customId == CancelClose then Cancelled
        else NoReply
  }

  // ---- The transcript ----

  predicate Truthy(s: Option<string>) {
    s.Some? && s.value != ""
  }

  /** `[Anexo: name](url)`. */
  function AttachmentLink(a: Attachment): (r: string)
    ensures r != "" && r[0] == '['
  {
    "[Anexo: " + a.name + "](" + a.url + ")"
  }

  function AttachmentLinks(atts: seq<Attachment>): (r: seq<string>)
    ensures |r| == |atts|
    ensures forall k :: 0 <= k < |r| ==> r[k] == AttachmentLink(atts[k])
  {
    if atts == [] then [] else [AttachmentLink(atts[0])] + AttachmentLinks(atts[1..])
  }

  /** The attachment lines of a message (events/ticketClose.js:107-109). */
  function AttachmentsText(atts: seq<Attachment>): string {
    Join(AttachmentLinks(atts), "\n")
  }

  /** The text of one embed (events/ticketClose.js:112-117): the bold title
      line when it has a title, then the description line when it has one. */
  function EmbedText(e: Embed): (r: string)
    ensures r == "" <==> !Truthy(e.title) && !Truthy(e.description)
  {
    (if Truthy(e.title) then "**" + e.title.value + "**\n" else "")
    + (if Truthy(e.description) then e.description.value + "\n" else "")
  }

  function EmbedTexts(embeds: seq<Embed>): (r: seq<string>)
    ensures |r| == |embeds|
    ensures forall k :: 0 <= k < |r| ==> r[k] == EmbedText(embeds[k])
  {
    if embeds == [] then [] else [EmbedText(embeds[0])] + EmbedTexts(embeds[1..])
  }

  /** The embed text of a message (events/ticketClose.js:111-118). */
  function EmbedsText(embeds: seq<Embed>): string {
    Join(EmbedTexts(embeds), "\n")
  }

  /** `[stamp] tag: content`, never empty. */
  function Header(m: ChatMessage): (r: string)
    ensures r != [] && r[0] == '['
  {
    "[" + m.stamp + "] " + m.tag + ": " + m.content
  }

  /** The header is a single line exactly when the stamp, the tag and the
      content are. */
  lemma HeaderOneLine(m: ChatMessage)
    ensures '\n' !in Header(m) <==> '\n' !in m.stamp && '\n' !in m.tag && '\n' !in m.content
  {
  }

  /** The block of one message (events/ticketClose.js:120-122): the header,
      then the attachments and then the embed text, each on a new line and
      each only when non-empty. */
  function Block(m: ChatMessage): (r: string)
    ensures Header(m) <= r
  {
    var atts := AttachmentsText(m.attachments);
    var embeds := EmbedsText(m.embeds);
    Header(m) + (if atts != "" then "\n" + atts else "") + (if embeds != "" then "\n" + embeds else "")
  }

  /** The blocks of the fetched messages, oldest first: the fetch lists
      the newest first, and the handler reverses it (events/ticketClose.js:103). */
  function Blocks(fetched: seq<ChatMessage>): (r: seq<string>)
    ensures |r| == |fetched|
    ensures forall k :: 0 <= k < |r| ==> r[k] == Block(fetched[|fetched| - 1 - k])
  {
    if fetched == [] then []
    else
      var rest := Blocks(fetched[1..]);
      assert forall k :: 0 <= k < |rest| ==> rest[k] == Block(fetched[|fetched| - 1 - k]) by {
        forall k | 0 <= k < |rest| ensures rest[k] == Block(fetched[|fetched| - 1 - k]) {
          assert fetched[1..][|rest| - 1 - k] == fetched[|fetched| - 1 - k];
        }
      }
      rest + [Block(fetched[0])]
  }

  /** The transcript saved when a ticket closes (events/ticketClose.js:106-123):
      empty only when no message was fetched. */
  function Transcript(fetched: seq<ChatMessage>): (r: string)
    ensures r == "" <==> fetched == []
  {
    var blocks := Blocks(fetched);
    assert forall k :: 0 <= k < |blocks| ==> blocks[k] != "" by {
      forall k | 0 <= k < |blocks| ensures blocks[k] != "" {
        assert Header(fetched[|fetched| - 1 - k]) <= blocks[k];
      }
    }
    JoinNonEmpty(blocks, "\n");
    Join(blocks, "\n")
  }

  /** Joined non-empty pieces are empty only when there are none. */
  lemma JoinNonEmpty(parts: seq<string>, sep: string)
    requires forall k :: 0 <= k < |parts| ==> parts[k] != ""
    ensures Join(parts, sep) == "" <==> parts == []
  {
    if |parts| >= 2 {
      assert |Join(parts, sep)| >= |parts[0]|;
    }
  }

  /** A message has attachment lines exactly when it has attachments. */
  lemma AttachmentsTextEmpty(atts: seq<Attachment>)
    ensures AttachmentsText(atts) == "" <==> atts == []
  {
    JoinNonEmpty(AttachmentLinks(atts), "\n");
  }

  /** The embed text is empty exactly when there are no embeds, or a single
      embed with neither title nor description. Two or more embeds always
      leave at least their newline separators. */
  lemma EmbedsTextEmpty(embeds: seq<Embed>)
    ensures EmbedsText(embeds) == "" <==>
      |embeds| == 0 || (|embeds| == 1 && !Truthy(embeds[0].title) && !Truthy(embeds[0].description))
  {
    var t := EmbedTexts(embeds);
    if |t| >= 2 {
      assert |Join(t, "\n")| >= |t[0]| + 1;
    }
  }

  /** A message is its header alone exactly when it has no attachments and
      its embeds render empty. */
  lemma BlockPlain(m: ChatMessage)
    ensures Block(m) == Header(m) <==> m.attachments == [] && EmbedsText(m.embeds) == ""
  {
    AttachmentsTextEmpty(m.attachments);
  }

  /** Without embed text, and when the header and the links are single
      lines, the block's lines are the header and then one link per
      attachment, in order. */
  lemma BlockLines(m: ChatMessage)
    requires EmbedsText(m.embeds) == ""
    requires '\n' !in Header(m)
    requires forall k :: 0 <= k < |m.attachments| ==> '\n' !in AttachmentLink(m.attachments[k])
    ensures Split(Block(m), "\n") == [Header(m)] + AttachmentLinks(m.attachments)
  {
    var h, links := Header(m), AttachmentLinks(m.attachments);
    var parts := [h] + links;
    AttachmentsTextEmpty(m.attachments);
    if links == [] {
      assert Join(parts, "\n") == h;
    } else {
      assert parts[1..] == links;
      assert Join(parts, "\n") == h + "\n" + Join(links, "\n");
    }
    assert Block(m) == Join(parts, "\n");
    SplitJoin(parts, '\n');
  }

  /** With embed text, the block ends with a newline and that text. */
  lemma BlockEndsWithEmbeds(m: ChatMessage)
    requires EmbedsText(m.embeds) != ""
    ensures var e, r := "\n" + EmbedsText(m.embeds), Block(m);
      |e| <= |r| && r[|r| - |e|..] == e
  {
    var e := "\n" + EmbedsText(m.embeds);
    var atts := AttachmentsText(m.attachments);
    var front := Header(m) + (if atts != "" then "\n" + atts else "");
    assert Block(m) == front + e;
  }

  /** The transcript of messages whose blocks are single lines has one line
      per message, oldest first: splitting it on newlines gives the blocks
      back in that order. */
  lemma TranscriptLines(fetched: seq<ChatMessage>)
    requires |fetched| >= 1
    requires forall k :: 0 <= k < |fetched| ==> '\n' !in Block(fetched[k])
    ensures var lines := Split(Transcript(fetched), "\n");
      |lines| == |fetched| && forall k :: 0 <= k < |lines| ==> lines[k] == Block(fetched[|fetched| - 1 - k])
  {
    SplitJoin(Blocks(fetched), '\n');
  }

  /** Fetching more messages (older ones, listed after the newer) puts
      their blocks at the front of the transcript. */
  lemma TranscriptOlderFirst(newer: seq<ChatMessage>, older: seq<ChatMessage>)
    requires newer != [] && older != []
    ensures Transcript(newer + older) == Transcript(older) + "\n" + Transcript(newer)
  {
    BlocksAppend(newer, older);
    JoinAppend(Blocks(older), Blocks(newer), "\n");
  }

  lemma {:induction false} BlocksAppend(newer: seq<ChatMessage>, older: seq<ChatMessage>)
    ensures Blocks(newer + older) == Blocks(older) + Blocks(newer)
    decreases |newer|
  {
    if newer == [] {
      assert newer + older == older;
    } else {
      assert (newer + older)[1..] == newer[1..] + older;
      BlocksAppend(newer[1..], older);
    }
  }

  lemma {:induction false} JoinAppend(a: seq<string>, b: seq<string>, sep: string)
    requires a != [] && b != []
    ensures Join(a + b, sep) == Join(a, sep) + sep + Join(b, sep)
    decreases |a|
  {
    if |a| == 1 {
      assert (a + b)[1..] == b;
    } else {
      assert (a + b)[1..] == a[1..] + b;
      JoinAppend(a[1..], b, sep);
      assert Join(a + b, sep) == a[0] + sep + (Join(a[1..], sep) + sep + Join(b, sep));
      assert Join(a, sep) == a[0] + sep + Join(a[1..], sep);
    }
  }
}
