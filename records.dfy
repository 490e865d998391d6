/**
 * The text-record editor (components/ManageDomain.tsx): four free-form
 * fields edited one at a time, a bio that the completion service can
 * write, and the save hand-off.
 */
module Records {
  import opened Wrappers
  import opened Strings
  import opened AiReplies

  datatype TextRecords = TextRecords(bio: string, discord: string, twitter: string, telegram: string)

  datatype Field = Bio | Discord | Twitter | Telegram

  function Get(r: TextRecords, f: Field): string {
    match f
    case Bio => r.bio
    case Discord => r.discord
    case Twitter => r.twitter
    case Telegram => r.telegram
  }

  /** Editing one field: that field takes the new value and every other field keeps its own. */
  function Edit(r: TextRecords, f: Field, value: string): (e: TextRecords)
    ensures Get(e, f) == value
    ensures forall g :: g != f ==> Get(e, g) == Get(r, g)
  {
    match f
    case Bio => r.(bio := value)
    case Discord => r.(discord := value)
    case Twitter => r.(twitter := value)
    case Telegram => r.(telegram := value)
  }

  /** The last edit of a field wins, re-entering a field's own value changes nothing, and edits of different fields commute. */
  lemma EditLaws(r: TextRecords, f: Field, g: Field, v: string, w: string)
    ensures Edit(Edit(r, f, v), f, w) == Edit(r, f, w)
    ensures Edit(r, f, Get(r, f)) == r
    ensures f != g ==> Edit(Edit(r, f, v), g, w) == Edit(Edit(r, g, w), f, v)
  {
  }

  /** The records the editor opens with: the domain's own, or all four fields empty. */
  function InitialRecords(existing: Option<TextRecords>): (r: TextRecords)
    ensures existing.Some? ==> r == existing.value
    ensures existing.None? ==> forall f :: Get(r, f) == ""
  {
    if existing.Some? then existing.value else TextRecords("", "", "", "")
  }

  // Each literal is written in two halves so that the verifier sees its first and last characters.
  const DefaultBio: string := "Alpha trader dominating the Lighter " + "orderbooks. Speed and scale combined."
  const FailureBio: string := "Scalping alpha on Lighter. " + "Fast, verifiable, and unstoppable."

  /**
   * The bio written by "generate with AI": the trimmed reply when it has
   * content, the default when the reply is missing or blank, and the
   * failure text when the call throws. It is never empty and never starts
   * or ends with whitespace.
   */
  function GeneratedBio(reply: AiReply): (bio: string)
    ensures reply.Answered? && !Blank(reply.text) ==> bio == Trim(reply.text)
    ensures reply == NoText || (reply.Answered? && Blank(reply.text)) ==> bio == DefaultBio
    ensures reply.Failed? ==> bio == FailureBio
    ensures bio != [] && !IsSpace(bio[0]) && !IsSpace(bio[|bio| - 1])
  {
    assert DefaultBio[0] == 'A' && DefaultBio[|DefaultBio| - 1] == '.';
    assert FailureBio[0] == 'S' && FailureBio[|FailureBio| - 1] == '.';
    match reply
    case Answered(text) => if Trim(text) != "" then Trim(text) else DefaultBio
    case NoText => DefaultBio
    case Failed(_) => FailureBio
  }

  class RecordEditor {
    const domainName: string
    var records: TextRecords
    var isGenerating: bool

    constructor (domainName: string, existing: Option<TextRecords>)
      ensures this.domainName == domainName
      ensures records == InitialRecords(existing) && !isGenerating
    {
      this.domainName := domainName;
      records := InitialRecords(existing);
      isGenerating := false;
    }

    /** Typing into one of the bio, twitter, discord or telegram inputs. */
    method EditField(f: Field, value: string)
      modifies this
      ensures records == Edit(old(records), f, value)
      ensures isGenerating == old(isGenerating)
    {
      records := Edit(records, f, value);
    }

    /** "Generate with AI" (disabled while a generation runs). */
    method BeginGenerate()
      requires !isGenerating
      modifies this
      ensures isGenerating && records == old(records)
    {
      isGenerating := true;
    }

    /** The completion settles: only the bio changes, to the generated text, and generation ends. */
    method FinishGenerate(reply: AiReply)
      requires isGenerating
      modifies this
      ensures records == Edit(old(records), Bio, GeneratedBio(reply))
      ensures !isGenerating
    {
      records := Edit(records, Bio, GeneratedBio(reply));
      isGenerating := false;
    }

    /** "Save text records" hands over exactly the records being edited. */
    method Save() returns (saved: TextRecords)
      ensures saved == records
      ensures forall f :: Get(saved, f) == Get(records, f)
    {
      saved := records;
    }
  }
}
