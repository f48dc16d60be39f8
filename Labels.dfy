/** The label and colour switches of the two upload components:
    `getClassColor` and `translateClassName` (written out identically in
    BatchUploader.js and ImageUploader.js), and BatchUploader's
    `translateStatus` and `getStatusColor`. */
module Labels {
  import Api

  /** The colour names the components hand to their chips. */
  datatype Palette = Default | Success | Warning | Error

  const Healthy := "Healthy"
  const EarlyBlight := "Early Blight"
  const LateBlight := "Late Blight"

  /** A class label the switches have a case for. */
  predicate KnownClass(className: string) {
    className == Healthy || className == EarlyBlight || className == LateBlight
  }

  /** `getClassColor`: green, orange and red for the three classes, the
      neutral colour for anything else. */
  function ClassColor(className: string): (p: Palette)
    ensures p == Default <==> !KnownClass(className)
    ensures className == Healthy ==> p == Success
    ensures className == EarlyBlight ==> p == Warning
    ensures className == LateBlight ==> p == Error
  {
    if className == Healthy then Success
    else if className == EarlyBlight then Warning
    else if className == LateBlight then Error
    else Default
  }

  /** `translateClassName`: French labels for the three classes; any other
      label is shown as it is. */
  function TranslateClassName(className: string): (t: string)
    ensures !KnownClass(className) ==> t == className
    ensures KnownClass(className) ==> t != className && !KnownClass(t)
    ensures className == Healthy ==> t == "Saine"
    ensures className == EarlyBlight ==> t == "Mildiou Précoce"
    ensures className == LateBlight ==> t == "Brûlure Tardive"
  {
    if className == Healthy then "Saine"
    else if className == EarlyBlight then "Mildiou Précoce"
    else if className == LateBlight then "Brûlure Tardive"
    else className
  }

  /** `translateStatus`: French words for the two statuses the server
      sends; any other status is shown as it is. */
  function TranslateStatus(status: string): (t: string)
    ensures status != "success" && status != "error" ==> t == status
    ensures status == "success" || status == "error" ==> t != "success" && t != "error"
    ensures status == "success" ==> t == "succès"
    ensures status == "error" ==> t == "erreur"
  {
    if status == "success" then "succès"
    else if status == "error" then "erreur"
    else status
  }

  /** BatchUploader's `getStatusColor`: only "success" is green; every other
      status, known or not, is red. */
  function StatusColor(status: string): (p: Palette)
    ensures p == Success <==> status == "success"
    ensures p == Success || p == Error
  {
    if status == "success" then Success else Error
  }

  /** The three classes get three different colours and three different
      French labels. */
  lemma KnownClassesDistinguished(a: string, b: string)
    requires KnownClass(a) && KnownClass(b) && a != b
    ensures ClassColor(a) != ClassColor(b)
    ensures TranslateClassName(a) != TranslateClassName(b)
  {
  }

  /** Every class the server can predict has a colour and a translation. */
  lemma ServerClassesKnown(className: string)
    requires className in Api.ClassNames
    ensures KnownClass(className)
    ensures ClassColor(className) != Default && TranslateClassName(className) != className
  {
  }
}
