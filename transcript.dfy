/** The conversation as the model API sees it: messages with a role and an
    ordered list of content blocks. */
module Transcript {
  import opened Tools

  /** A tool_use block's input: JSON that re-encodes into the payload the
      tool decodes, or input that cannot be re-encoded. */
  datatype ToolInput = Input(payload: Payload) | Unmarshalable(reason: string)

  /** A content block; `OtherBlock` stands for every block type that is
      neither "text" nor "tool_use" nor "tool_result". */
  datatype ContentBlock =
    | TextBlock(text: string)
    | ToolUseBlock(id: string, name: string, input: ToolInput)
    | ToolResultBlock(toolUseId: string, content: string, isError: bool)
    | OtherBlock(kind: string)

  datatype Role = User | Assistant

  datatype Message = Message(role: Role, content: seq<ContentBlock>)

  /** A user message holding a single text block. */
  function UserText(text: string): Message
  {
    Message(User, [TextBlock(text)])
  }

  /** Whether a response asks for a tool: some block is a tool_use block,
      that is, its list of tool uses is not empty. */
  predicate HasToolUse(blocks: seq<ContentBlock>): (has: bool)
    ensures has <==> ToolUses(blocks) != []
  {
    ToolUsesFound(blocks);
    exists i :: 0 <= i < |blocks| && blocks[i].ToolUseBlock?
  }

  /** One more block asks for a tool exactly when it is a tool use or an
      earlier block already was. */
  lemma HasToolUseSnoc(blocks: seq<ContentBlock>, b: ContentBlock)
    ensures HasToolUse(blocks + [b]) <==> HasToolUse(blocks) || b.ToolUseBlock?
  {
    var all := blocks + [b];
    assert all[|blocks|] == b;
    if HasToolUse(all) && !b.ToolUseBlock? {
      var i :| 0 <= i < |all| && all[i].ToolUseBlock?;
      assert blocks[i] == all[i];
    }
    if HasToolUse(blocks) {
      var i :| 0 <= i < |blocks| && blocks[i].ToolUseBlock?;
      assert all[i] == blocks[i];
    }
  }

  /** The tool_use blocks, in their order in the response. */
  function ToolUses(blocks: seq<ContentBlock>): (uses: seq<ContentBlock>)
    ensures forall i :: 0 <= i < |uses| ==> uses[i].ToolUseBlock?
    ensures |uses| <= |blocks|
  {
    if blocks == [] then []
    else
      var last := blocks[|blocks| - 1];
      ToolUses(blocks[..|blocks| - 1]) + (if last.ToolUseBlock? then [last] else [])
  }

  /** The list of tool uses is not empty exactly when some block is a tool
      use. */
  lemma {:induction false} ToolUsesFound(blocks: seq<ContentBlock>)
    ensures ToolUses(blocks) != [] <==> exists i :: 0 <= i < |blocks| && blocks[i].ToolUseBlock?
  {
    if blocks != [] {
      var front := blocks[..|blocks| - 1];
      var last := blocks[|blocks| - 1];
      ToolUsesFound(front);
      var x := if last.ToolUseBlock? then [last] else [];
      assert ToolUses(blocks) == ToolUses(front) + x;
      assert |ToolUses(blocks)| == |ToolUses(front)| + |x|;
      if exists i :: 0 <= i < |front| && front[i].ToolUseBlock? {
        var i :| 0 <= i < |front| && front[i].ToolUseBlock?;
        assert blocks[i] == front[i];
      }
      if exists i :: 0 <= i < |blocks| && blocks[i].ToolUseBlock? {
        var i :| 0 <= i < |blocks| && blocks[i].ToolUseBlock?;
        if i < |front| {
          assert front[i] == blocks[i];
        }
      }
    }
  }

  lemma AppendAssoc<T>(x: seq<T>, y: seq<T>, z: seq<T>)
    ensures (x + y) + z == x + (y + z)
  {
  }

  /** Tool uses are kept in order: those of a joined list are those of its
      parts, joined. */
  lemma {:induction false} ToolUsesAppend(a: seq<ContentBlock>, b: seq<ContentBlock>)
    ensures ToolUses(a + b) == ToolUses(a) + ToolUses(b)
    decreases |b|
  {
    if b == [] {
      assert a + b == a;
      assert ToolUses(a) + [] == ToolUses(a);
    } else {
      var front := b[..|b| - 1];
      var last := b[|b| - 1];
      ToolUsesAppend(a, front);
      assert (a + b)[..|a + b| - 1] == a + front;
      assert (a + b)[|a + b| - 1] == last;
      var x := if last.ToolUseBlock? then [last] else [];
      assert ToolUses(a + b) == ToolUses(a + front) + x;
      assert ToolUses(b) == ToolUses(front) + x;
      AppendAssoc(ToolUses(a), ToolUses(front), x);
    }
  }

  /** A single block is kept exactly when it is a tool use. */
  lemma ToolUsesSingle(b: ContentBlock)
    ensures ToolUses([b]) == if b.ToolUseBlock? then [b] else []
  {
    assert [b][..0] == [];
  }

  /** The text blocks' texts concatenated in order; other blocks contribute
      nothing. */
  function TextOf(blocks: seq<ContentBlock>): (text: string)
    ensures (forall i :: 0 <= i < |blocks| ==> !blocks[i].TextBlock?) ==> text == ""
  {
    if blocks == [] then ""
    else
      var last := blocks[|blocks| - 1];
      TextOf(blocks[..|blocks| - 1]) + (if last.TextBlock? then last.text else "")
  }

  /** Concatenating two block lists concatenates their texts. */
  lemma {:induction false} TextOfAppend(a: seq<ContentBlock>, b: seq<ContentBlock>)
    ensures TextOf(a + b) == TextOf(a) + TextOf(b)
    decreases |b|
  {
    if b == [] {
      assert a + b == a;
      assert TextOf(a) + "" == TextOf(a);
    } else {
      var front := b[..|b| - 1];
      var last := b[|b| - 1];
      TextOfAppend(a, front);
      assert (a + b)[..|a + b| - 1] == a + front;
      assert (a + b)[|a + b| - 1] == last;
      var x := if last.TextBlock? then last.text else "";
      assert TextOf(a + b) == TextOf(a + front) + x;
      assert TextOf(b) == TextOf(front) + x;
      AppendAssoc(TextOf(a), TextOf(front), x);
    }
  }

  /** A response made of text blocks only yields exactly their texts. */
  lemma {:induction false} TextOfTexts(texts: seq<string>)
    ensures TextOf(seq(|texts|, i requires 0 <= i < |texts| => TextBlock(texts[i]))) == Concat(texts)
    decreases |texts|
  {
    if texts != [] {
      var blocks := seq(|texts|, i requires 0 <= i < |texts| => TextBlock(texts[i]));
      var front := texts[..|texts| - 1];
      TextOfTexts(front);
      assert blocks[..|blocks| - 1] == seq(|front|, i requires 0 <= i < |front| => TextBlock(front[i]));
    }
  }

  function Concat(texts: seq<string>): string
  {
    if texts == [] then "" else Concat(texts[..|texts| - 1]) + texts[|texts| - 1]
  }
}
