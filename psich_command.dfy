/**
 * PsichCommand: the `/psich` command of the Minecraft plugin. The first
 * argument, lower-cased, picks one of help, mute, reload and reset; mute,
 * reload and reset are reserved to senders holding `psich.admin`. Every
 * path reports the command as handled.
 */
module Commands {
  import opened Wrappers
  import opened Text
  import opened Storage
  import opened Config

  /** The subcommands the switch knows, and everything else. */
  datatype Sub = Help | Mute | Reload | Reset | Unknown

  /** The chat id the command acts on: the whole server shares one chat. */
  const GlobalChat := "global"

  /** The switch on the already lower-cased first argument. */
  function SubOfLowered(lowered: string): Sub
  {
    match lowered
    case "help" => Help
    case "mute" => Mute
    case "reload" => Reload
    case "reset" => Reset
    case _ => Unknown
  }

  /** `args[0].toLowerCase()` followed by the switch. */
  function Parse(arg: string): Sub
  {
    SubOfLowered(ToLower(arg))
  }

  /** Subcommands that need `psich.admin`. */
  predicate AdminOnly(sub: Sub)
  {
    sub == Mute || sub == Reload || sub == Reset
  }

  /** Every message the command can send, one constructor per reply. */
  datatype Reply =
    | Usage
    | UnknownCommand
    | HelpText(admin: bool)
    | NoPermission
    | MuteReport(muted: bool)
    | Reloaded
    | Forgotten

  const Tag := "\U{A7}e[Псич] \U{A7}7"
  const UsageHint := "Используй: /psich help"

  /** The help lines everybody sees. */
  function PublicHelp(): seq<string>
  {
    ["\U{A7}6=== Помощь по боту Псич ===",
     "\U{A7}e/psich help \U{A7}7- Показать эту справку",
     "",
     "\U{A7}6Как общаться с ботом:",
     "\U{A7}7• Напиши в чат: \U{A7}eПсич, [твое сообщение]",
     ""]
  }

  /** The help lines only administrators see. */
  function AdminHelp(): seq<string>
  {
    ["\U{A7}cАдминистративные команды:",
     "\U{A7}e/psich mute \U{A7}7- Включить/выключить режим тишины",
     "\U{A7}e/psich reload \U{A7}7- Перезагрузить конфигурацию",
     "\U{A7}e/psich reset \U{A7}7- Сбросить историю чата"]
  }

  /** The chat lines a reply sends to the command's sender. */
  function Lines(r: Reply): seq<string>
  {
    match r
    case Usage => [Tag + UsageHint]
    case UnknownCommand => [Tag + "Неизвестная команда. " + UsageHint]
    case HelpText(admin) => PublicHelp() + (if admin then AdminHelp() else [])
    case NoPermission => ["\U{A7}c[Псич] \U{A7}7" + "У вас нет прав на использование этой команды."]
    case MuteReport(muted) => [Tag + (if muted then "Окей молчу" else "Я тут")]
    case Reloaded => [Tag + "Конфигурация перезагружена!"]
    case Forgotten => [Tag + "Окей, всё забыл, ну было и было"]
  }

  /** The reply a command gets before any state is looked at, if it is decided by the arguments and the permission alone. */
  function Answer(args: seq<string>, isAdmin: bool): (r: Option<Reply>)
    ensures r.None? <==> |args| > 0 && AdminOnly(Parse(args[0])) && isAdmin
  {
    if |args| == 0 then Some(Usage)
    else match Parse(args[0])
      case Help => Some(HelpText(isAdmin))
      case Unknown => Some(UnknownCommand)
      case _ => if isAdmin then None else Some(NoPermission)
  }

  /**
   * `onCommand`: dispatch on the first argument. Help, the usage line, an
   * unknown subcommand and a refused admin subcommand send one reply and
   * change nothing; mute toggles and reports the "global" mute, reload
   * re-reads the configuration file `file` over the bundled defaults
   * `bundled`, reset clears the "global" history. `isAdmin` is `sender.hasPermission("psich.admin")`.
   */
  method OnCommand(store: StorageService, config: ConfigManager, file: ConfigFile, bundled: ConfigFile,
                   args: seq<string>, isAdmin: bool)
    returns (handled: bool, reply: Reply)
    modifies store, config
    ensures handled
    ensures Answer(args, isAdmin).Some? ==>
      reply == Answer(args, isAdmin).value && unchanged(store) && unchanged(config)
    ensures Answer(args, isAdmin).None? && Parse(args[0]) == Mute ==>
      store.State() == Toggle(old(store.State()), GlobalChat) && store.profiles == old(store.profiles)
      && store.IsMuted(GlobalChat) == !old(store.IsMuted(GlobalChat))
      && reply == MuteReport(store.IsMuted(GlobalChat)) && unchanged(config)
    ensures Answer(args, isAdmin).None? && Parse(args[0]) == Reload ==>
      config.LoadedFrom(file, bundled) && config.Valid() && reply == Reloaded && unchanged(store)
    ensures Answer(args, isAdmin).None? && Parse(args[0]) == Reset ==>
      store.chats == old(store.chats)[GlobalChat := ChatOrNew(old(store.chats), GlobalChat).(history := [])]
      && store.mutedChats == old(store.mutedChats) && store.profiles == old(store.profiles)
      && reply == Forgotten && unchanged(config)
    ensures old(store.State().Valid()) ==> store.State().Valid()
  {
    handled := true;
    var answer := Answer(args, isAdmin);
    if answer.Some? {
      reply := answer.value;
      return;
    }
    var sub := Parse(args[0]);
    if sub == Mute {
      store.ToggleMute(GlobalChat);
      reply := MuteReport(store.IsMuted(GlobalChat));
    } else if sub == Reload {
      config.LoadConfig(file, bundled);
      reply := Reloaded;
    } else {
      store.ClearHistory(GlobalChat);
      reply := Forgotten;
    }
  }

  /** The subcommand is matched without regard to case. */
  lemma {:induction false} ParseIgnoresCase(a: string, b: string)
    requires EqualsIgnoreCase(a, b)
    ensures Parse(a) == Parse(b)
  {
    assert ToLower(a) == ToLower(b);
  }

  /** Exactly the four names, in any case, are subcommands; everything else is unknown. */
  lemma ParseKnown(arg: string)
    ensures Parse(arg) != Unknown <==> ToLower(arg) in {"help", "mute", "reload", "reset"}
  {
  }

  /** Without `psich.admin`, every admin subcommand is refused with the same reply. */
  lemma RefusedWithoutPermission(args: seq<string>)
    requires |args| > 0 && AdminOnly(Parse(args[0]))
    ensures Answer(args, false) == Some(NoPermission)
  {
  }

  /** The help text shows the admin lines exactly to administrators, after the public ones. */
  lemma HelpForAdmins(admin: bool)
    ensures |Lines(HelpText(admin))| == if admin then 10 else 6
    ensures Lines(HelpText(false)) == Lines(HelpText(true))[..6]
  {
  }

  /** The mute report tells the two states apart. */
  lemma MuteReportsState(a: bool, b: bool)
    ensures Lines(MuteReport(a)) == Lines(MuteReport(b)) <==> a == b
  {
    if a != b {
      assert Lines(MuteReport(a))[0][|Tag|] != Lines(MuteReport(b))[0][|Tag|];
    }
  }
}
