/** The library's own exception classes (PropertyError, ForceFileError,
    ContentError, ChannelError) and the text `str()` gives for each. Every
    message defaults to the empty string. */
module JPKayError {
  import Text

  datatype JPKayError =
    /** A JavaProperty of the force file is corrupted. */
    | PropertyError(key: string, message: string := "")
    /** The force file itself cannot be read. */
    | ForceFileError(message: string := "")
    /** One of the archive's contents cannot be read. */
    | ContentError(content: string, message: string := "")
    /** A data channel is at fault. */
    | ChannelError(channel: string, message: string := "")

  /** `str(error)`, the `__str__` of each class. */
  function Str(e: JPKayError): (s: string)
    ensures Text.EndsWith(s, e.message)
  {
    match e
    case PropertyError(key, message) => "JavaProperty corrupted:\n\"" + key + "\"\n" + message
    case ForceFileError(message) => "ForceFile error: " + message
    case ContentError(content, message) => "Content error: " + content + " " + message
    case ChannelError(channel, message) => "Channel \"" + channel + "\" error: " + message
  }

  /** Which of the four classes an error belongs to. */
  function ClassIndex(e: JPKayError): nat {
    match e
    case PropertyError(_, _) => 0
    case ForceFileError(_) => 1
    case ContentError(_, _) => 2
    case ChannelError(_, _) => 3
  }

  /** The rendering starts with two characters that belong to the class alone. */
  lemma {:induction false} StrLead(e: JPKayError)
    ensures |Str(e)| >= 2
    ensures (Str(e)[0], Str(e)[1]) == [('J', 'a'), ('F', 'o'), ('C', 'o'), ('C', 'h')][ClassIndex(e)]
  {
  }

  /** Errors of different classes never render alike. */
  lemma {:induction false} StrTellsClassesApart(e1: JPKayError, e2: JPKayError)
    requires ClassIndex(e1) != ClassIndex(e2)
    ensures Str(e1) != Str(e2)
  {
    StrLead(e1);
    StrLead(e2);
  }

  /** A ForceFileError's message can be read back from its rendering. */
  lemma {:induction false} ForceFileErrorMessage(message: string)
    ensures Str(ForceFileError(message))[|"ForceFile error: "|..] == message
  {
  }

  /** Errors raised without a message render with nothing after the fixed text. */
  lemma {:induction false} DefaultMessages(key: string, content: string, channel: string)
    ensures Str(PropertyError(key)) == "JavaProperty corrupted:\n\"" + key + "\"\n"
    ensures Str(ForceFileError()) == "ForceFile error: "
    ensures Str(ContentError(content)) == "Content error: " + content + " "
    ensures Str(ChannelError(channel)) == "Channel \"" + channel + "\" error: "
  {
  }
}
