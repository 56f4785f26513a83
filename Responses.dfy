/** The reply a command builds for one invocation: text lines in the order
    they were added and at most one embed, the last one set. */
module Responses {
  import opened Wrappers

  /** The rich part of a reply: the description text and the name of the
      type whose colour `ColorTracker.getColorForType` supplies. */
  datatype Embed = Embed(description: string, colorType: string)

  /** The content of a reply as a value. */
  datatype ReplyContent = ReplyContent(lines: seq<string>, embed: Option<Embed>)

  class Response {
    var lines: seq<string>
    var embed: Option<Embed>

    constructor ()
      ensures lines == [] && embed == None
    {
      lines := [];
      embed := None;
    }

    function Content(): ReplyContent
      reads this
    {
      ReplyContent(lines, embed)
    }

    /** `addToReply`: appends one line. */
    method AddToReply(line: string)
      modifies this
      ensures lines == old(lines) + [line]
      ensures embed == old(embed)
    {
      lines := lines + [line];
    }

    /** `setEmbededReply`: sets the embed, replacing an earlier one. */
    method SetEmbededReply(e: Embed)
      modifies this
      ensures embed == Some(e)
      ensures lines == old(lines)
    {
      embed := Some(e);
    }
  }
}
