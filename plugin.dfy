/**
 * `Plugin`: the base of every tool. A plugin instance is its fixed
 * description (command, aliases, name, description, declaration table) and
 * the state the binder changes: the values of its option properties and
 * fields, and the option methods invoked on it.
 */
module Plugin {
  import opened Text
  import opened Schema

  /** The tools the host knows, used to pick the `Run` to execute. */
  datatype Tool = FFMpegTool | YoutubeDLTool | ClickerTool | ImageOnTopTool

  /** The abstract properties a plugin overrides, and its declaration table. */
  datatype PluginInfo = PluginInfo(
    command: string,
    aliases: seq<string>,
    name: string,
    description: string,
    declarations: seq<Declaration>,
    tool: Tool)

  /** Does some alias, trimmed and lower-cased, equal `lcmd`? Aliases are tried in order. */
  function AliasMatch(aliases: seq<string>, lcmd: string): bool {
    if aliases == [] then false
    else if Lower(Trim(aliases[0])) == lcmd then true
    else AliasMatch(aliases[1..], lcmd)
  }

  /** The loop over the aliases finds a match exactly when one exists. */
  lemma {:induction false} AliasMatchSpec(aliases: seq<string>, lcmd: string)
    ensures AliasMatch(aliases, lcmd) <==> exists i :: 0 <= i < |aliases| && Lower(Trim(aliases[i])) == lcmd
  {
    if aliases != [] && Lower(Trim(aliases[0])) != lcmd {
      AliasMatchSpec(aliases[1..], lcmd);
      if AliasMatch(aliases, lcmd) {
        var i :| 0 <= i < |aliases[1..]| && Lower(Trim(aliases[1..][i])) == lcmd;
        assert aliases[i + 1] == aliases[1..][i];
      }
      if exists i :: 0 <= i < |aliases| && Lower(Trim(aliases[i])) == lcmd {
        var i :| 0 <= i < |aliases| && Lower(Trim(aliases[i])) == lcmd;
        assert i != 0;
        assert aliases[1..][i - 1] == aliases[i];
      }
    }
  }

  class Plugin {
    const info: PluginInfo
    /** The current values of the option properties and fields, by member name. */
    var slots: map<string, SlotValue>
    /** The option methods invoked so far, in order. */
    var calls: seq<Call>

    /** A new instance: every property and field holds its initialiser. */
    constructor(info: PluginInfo, defaults: map<string, SlotValue>)
      ensures this.info == info && slots == defaults && calls == []
    {
      this.info := info;
      slots := defaults;
      calls := [];
    }

    /**
     * `CommandletMatch(cmd)`: `cmd` lower-cased equals the lower-cased
     * command, or some alias after trimming and lower-casing. Neither `cmd`
     * nor the command is trimmed.
     */
    function CommandletMatch(cmd: string): bool {
      var lcmd := Lower(cmd);
      if Lower(info.command) == lcmd then true
      else AliasMatch(info.aliases, lcmd)
    }

    /** A string property or field; "" when it does not hold a string. */
    function StrSlot(member: string): string
      reads this
    {
      if member in slots && slots[member].Str? then slots[member].s else ""
    }

    /** A bool property or field; false when it does not hold a bool. */
    function BoolSlot(member: string): bool
      reads this
    {
      member in slots && slots[member].Bool? && slots[member].b
    }

    /** A `string[]` property or field; empty when it does not hold one. */
    function ListSlot(member: string): seq<string>
      reads this
    {
      if member in slots && slots[member].StrList? then slots[member].items else []
    }
  }

  /**
   * A word selects the plugin exactly when, ignoring letter case, it is the
   * command or one of the trimmed aliases.
   */
  lemma CommandletMatchSpec(p: Plugin, cmd: string)
    ensures p.CommandletMatch(cmd)
        <==> (Lower(cmd) == Lower(p.info.command)
              || exists i :: 0 <= i < |p.info.aliases| && Lower(Trim(p.info.aliases[i])) == Lower(cmd))
  {
    AliasMatchSpec(p.info.aliases, Lower(cmd));
  }

  /** With no aliases, only the command itself (in any letter case) matches. */
  lemma NoAliasesMatchCommandOnly(p: Plugin, cmd: string)
    requires p.info.aliases == []
    ensures p.CommandletMatch(cmd) <==> Lower(cmd) == Lower(p.info.command)
  {
  }

  /** A name already in canonical form: lower-case ASCII letters, digits and `-`, no white space. */
  predicate CanonicalName(w: string) {
    forall j :: 0 <= j < |w| ==> w[j] == '-' || ('a' <= w[j] <= 'z') || IsDigit(w[j])
  }

  lemma CanonicalFixed(w: string)
    requires CanonicalName(w)
    ensures Trim(w) == w && Lower(w) == w
  {
    assert forall j :: 0 <= j < |w| ==> !IsWhiteSpace(w[j]) && LowerChar(w[j]) == w[j];
    TrimNoWhiteSpace(w);
    assert Lower(w) == w;
  }

  /**
   * When the command and the aliases are written in canonical form, a
   * command line word selects the plugin exactly when its lower-case form
   * is the command or one of the aliases.
   */
  lemma CanonicalMatch(p: Plugin, cmd: string)
    requires CanonicalName(p.info.command)
    requires forall i :: 0 <= i < |p.info.aliases| ==> CanonicalName(p.info.aliases[i])
    ensures p.CommandletMatch(cmd) <==> Lower(cmd) == p.info.command || Lower(cmd) in p.info.aliases
  {
    CommandletMatchSpec(p, cmd);
    CanonicalFixed(p.info.command);
    forall i | 0 <= i < |p.info.aliases|
      ensures Lower(Trim(p.info.aliases[i])) == p.info.aliases[i]
    {
      CanonicalFixed(p.info.aliases[i]);
    }
  }
}
