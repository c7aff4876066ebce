/** The fixed persona registry `BOT_PERSONAS` and its lookup with the Humor Bot fallback.
    The registry's seven keys are the source's own names; each prompt text is abbreviated
    to its opening words, which keeps the seven texts pairwise distinct. The dictionary is
    written as a closed enumeration of personas with a name and a text each. */
module Personas {

  datatype Option<T> = None | Some(value: T)

  datatype Persona = Writer | Therapist | Humor | Philosopher | BitcoinExpert | BlackIce | Jailbreak

  const WriterBot: string := "Writer Bot"
  const TherapistBot: string := "Therapist Bot"
  const HumorBot: string := "Humor Bot"
  const PhilosopherBot: string := "Philosopher Bot"
  const BitcoinExpertBot: string := "Bitcoin Expert Bot"
  const BlackIceBot: string := "Black Ice Bot"
  const JailbreakBot: string := "Jailbreak Bot"

  const WriterText: string := "You are a MASTER STORYTELLER"
  const TherapistText: string := "You are a GROUNDED, INSIGHTFUL THERAPIST"
  const HumorText: string := "You are a QUICK-WITTED COMEDY ENGINE"
  const PhilosopherText: string := "You are a BRILLIANT PHILOSOPHER"
  const BitcoinExpertText: string := "You are a HIGH-LEVEL BITCOIN STRATEGIST"
  const BlackIceText: string := "You are an ELITE INTELLIGENCE AI"
  const JailbreakText: string := "You are a LIMITLESS AI"

  /** The registry key of a persona. */
  function Name(p: Persona): string {
    match p
    case Writer => WriterBot
    case Therapist => TherapistBot
    case Humor => HumorBot
    case Philosopher => PhilosopherBot
    case BitcoinExpert => BitcoinExpertBot
    case BlackIce => BlackIceBot
    case Jailbreak => JailbreakBot
  }

  /** The system-prompt text the registry holds for a persona. */
  function Text(p: Persona): string {
    match p
    case Writer => WriterText
    case Therapist => TherapistText
    case Humor => HumorText
    case Philosopher => PhilosopherText
    case BitcoinExpert => BitcoinExpertText
    case BlackIce => BlackIceText
    case Jailbreak => JailbreakText
  }

  /** `name in BOT_PERSONAS`, giving the persona whose key `name` is. */
  function Find(name: string): (r: Option<Persona>)
    ensures r.Some? ==> Name(r.value) == name
    ensures r.None? ==> forall p: Persona :: Name(p) != name
  {
    if name == WriterBot then Some(Writer)
    else if name == TherapistBot then Some(Therapist)
    else if name == HumorBot then Some(Humor)
    else if name == PhilosopherBot then Some(Philosopher)
    else if name == BitcoinExpertBot then Some(BitcoinExpert)
    else if name == BlackIceBot then Some(BlackIce)
    else if name == JailbreakBot then Some(Jailbreak)
    else None
  }

  /** `BOT_PERSONAS.get(name, BOT_PERSONAS["Humor Bot"])`: never fails; a persona's own
      name gives its text, and a name that is not a key gives the Humor Bot text. */
  function Lookup(name: string): (text: string)
    ensures forall p: Persona :: Name(p) == name ==> text == Text(p)
    ensures (forall p: Persona :: Name(p) != name) ==> text == HumorText
  {
    match Find(name)
    case Some(p) => Text(p)
    case None => HumorText
  }

  /** `update_custom_prompt`: the default text used to pre-fill the custom-prompt editor is
      the very text a turn with that persona would use. */
  function DefaultPrompt(name: string): (text: string)
    ensures text == Lookup(name)
  {
    match Find(name)
    case Some(p) => Text(p)
    case None => HumorText
  }

  /** No two personas share a key or a text, so the registry is a one-to-one table. */
  lemma RegistryDistinct(p: Persona, q: Persona)
    requires p != q
    ensures Name(p) != Name(q)
    ensures Text(p) != Text(q)
  {
  }

  /** A lookup yields the Humor Bot text exactly when the name is Humor Bot or no persona's
      key. */
  lemma LookupFallback(name: string)
    ensures Lookup(name) == HumorText <==> name == HumorBot || Find(name).None?
  {
    match Find(name)
    case Some(p) =>
      if p != Humor { RegistryDistinct(p, Humor); }
    case None =>
  }

  /** A lookup yields the Black Ice Bot text exactly when the name is Black Ice Bot. */
  lemma LookupBlackIce(name: string)
    ensures Lookup(name) == BlackIceText <==> name == BlackIceBot
  {
    match Find(name)
    case Some(p) =>
      if p != BlackIce { RegistryDistinct(p, BlackIce); }
    case None =>
      assert Name(BlackIce) != name;
      RegistryDistinct(Humor, BlackIce);
  }
}
