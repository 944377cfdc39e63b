/**
 * The page component (LivingCaseStudy): the addressed executive's name, taken
 * from the `exec` query parameter, and whether the chat widget is open. The
 * name gates both the top banner and the personalized video section; the
 * launcher button mounts and unmounts the widget, so every opening starts a
 * fresh transcript.
 */
module CaseStudyPage {
  import opened Wrappers
  import VicBot

  /** The name the personalized parts address, if any: an empty name renders neither. */
  function Addressee(hiringManagerName: string): (r: Option<string>)
    ensures r.Some? <==> hiringManagerName != ""
    ensures r.Some? ==> r.value == hiringManagerName
  {
    if hiringManagerName != "" then Some(hiringManagerName) else None
  }

  /** The effect that reads `exec`: a present, non-empty value replaces the name; otherwise it is kept. */
  function NameAfterQuery(exec: Option<string>, current: string): (name: string)
    ensures exec.Some? && exec.value != "" ==> name == exec.value
    ensures !(exec.Some? && exec.value != "") ==> name == current
  {
    if exec.Some? && exec.value != "" then exec.value else current
  }

  const BannerPrefix: string := "A personal message for "
  const SectionPrefix: string := "A Personal Message for "

  /** The banner's link text for a name: the name sits right after the fixed opening words. */
  function BannerText(name: string): (text: string)
    ensures |text| == |BannerPrefix| + |name| + |" from Vic."|
    ensures text[..|BannerPrefix|] == BannerPrefix
    ensures text[|BannerPrefix|..|BannerPrefix| + |name|] == name
    ensures text[|BannerPrefix| + |name|..] == " from Vic."
  {
    BannerPrefix + name + " from Vic."
  }

  /** The personalized section's heading for a name: the fixed opening words, then the name. */
  function SectionHeading(name: string): (heading: string)
    ensures |heading| == |SectionPrefix| + |name|
    ensures heading[..|SectionPrefix|] == SectionPrefix
    ensures heading[|SectionPrefix|..] == name
  {
    SectionPrefix + name
  }

  /** The top banner, rendered only while the stored name is non-empty. */
  function Banner(hiringManagerName: string): (banner: Option<string>)
    ensures banner.Some? <==> hiringManagerName != ""
    ensures banner.Some? ==> banner.value == BannerText(hiringManagerName)
  {
    match Addressee(hiringManagerName)
    case Some(name) => Some(BannerText(name))
    case None => None
  }

  /** The personalized video section, gated on the same name as the banner. */
  function PersonalizedSection(hiringManagerName: string): (section: Option<string>)
    ensures section.Some? <==> hiringManagerName != ""
    ensures section.Some? ==> section.value == SectionHeading(hiringManagerName)
  {
    match Addressee(hiringManagerName)
    case Some(name) => Some(SectionHeading(name))
    case None => None
  }

  /**
   * After the page reads its query on load: a non-empty `exec` value yields
   * both the banner and the section, addressed to that value; no value, or an
   * empty one, yields neither.
   */
  lemma PersonalizationFromQuery(exec: Option<string>)
    ensures var name := NameAfterQuery(exec, "");
      && (Banner(name).Some? <==> exec.Some? && exec.value != "")
      && (PersonalizedSection(name).Some? <==> exec.Some? && exec.value != "")
      && (exec.Some? && exec.value != "" ==>
            Banner(name) == Some(BannerText(exec.value))
            && PersonalizedSection(name) == Some(SectionHeading(exec.value)))
  {
  }

  /** The banner and the section always show together: dismissing one hides the other. */
  lemma BannerIffSection(hiringManagerName: string)
    ensures Banner(hiringManagerName).Some? <==> PersonalizedSection(hiringManagerName).Some?
  {
  }

  class Page {
    var hiringManagerName: string
    var isBotOpen: bool
    var bot: VicBot.Widget?

    /** The widget exists exactly while it is open, and then it is well formed. */
    ghost predicate Valid()
      reads this, bot
    {
      (bot != null <==> isBotOpen) && (bot != null ==> bot.Valid())
    }

    /** First render: no name, widget closed. */
    constructor ()
      ensures Valid()
      ensures hiringManagerName == "" && !isBotOpen && bot == null
    {
      hiringManagerName := "";
      isBotOpen := false;
      bot := null;
    }

    /** The mount effect that reads the `exec` query parameter. */
    method ReadQuery(exec: Option<string>)
      requires Valid()
      modifies this`hiringManagerName
      ensures Valid()
      ensures hiringManagerName == NameAfterQuery(exec, old(hiringManagerName))
    {
      if exec.Some? && exec.value != "" {
        hiringManagerName := exec.value;
      }
    }

    /** The banner's close button: the name is cleared, which hides the banner and the section alike. */
    method DismissBanner()
      requires Valid()
      modifies this`hiringManagerName
      ensures Valid()
      ensures hiringManagerName == ""
      ensures Banner(hiringManagerName).None? && PersonalizedSection(hiringManagerName).None?
    {
      hiringManagerName := "";
    }

    /** The launcher button: flips the flag; opening mounts a fresh widget, closing unmounts it. */
    method ToggleBot()
      requires Valid()
      modifies this`isBotOpen, this`bot
      ensures Valid()
      ensures isBotOpen == !old(isBotOpen)
      ensures isBotOpen ==> fresh(bot) && bot.messages == [VicBot.ChatMessage(VicBot.Bot, VicBot.Greeting)]
                            && bot.input == "" && !bot.isLoading
    {
      isBotOpen := !isBotOpen;
      if isBotOpen {
        bot := new VicBot.Widget();
      } else {
        bot := null;
      }
    }

    /** The widget's close button. */
    method CloseBot()
      requires Valid()
      modifies this`isBotOpen, this`bot
      ensures Valid()
      ensures !isBotOpen && bot == null
    {
      isBotOpen := false;
      bot := null;
    }
  }
}
