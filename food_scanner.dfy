/** The food scanner panel (client/app/components/FoodScanner.tsx): the
    selected image, which an upload sets once the browser has read the file
    and "Retake" clears, and the choice between the upload prompt and the
    preview. The browser's FileReader is split into its two halves: the
    upload handler picks the file whose reading starts, and the reader's
    `load` event delivers the data URL. */
module FoodScanner {
  import opened Support

  /** What the panel shows. */
  datatype Screen = UploadPrompt | Preview(src: string)

  /** The render branch `!selectedImage ? prompt : preview`: an empty string
      is falsy, so it shows the prompt as well. */
  function ScreenFor(image: Option<string>): (s: Screen)
    ensures s == UploadPrompt <==> image.None? || image.value == ""
    ensures s.Preview? ==> image == Some(s.src) && s.src != ""
  {
    if image.None? || image.value == "" then UploadPrompt else Preview(image.value)
  }

  /** `event.target.files?.[0]`: the first chosen file, if any. */
  function FirstFile(files: Option<seq<BrowserFile>>): (f: Option<BrowserFile>)
    ensures f.Some? <==> files.Some? && |files.value| > 0
    ensures f.Some? ==> f.value == files.value[0]
  {
    if files.Some? && |files.value| > 0 then Some(files.value[0]) else None
  }

  class Scanner {
    /** `selectedImage`: None for `null`, otherwise the image's data URL. */
    var selectedImage: Option<string>

    /** Nothing is selected at first. */
    constructor ()
      ensures selectedImage == None
    {
      selectedImage := None;
    }

    function View(): Screen
      reads this
    {
      ScreenFor(selectedImage)
    }

    /** `handleImageUpload`: starts reading the first chosen file, whatever
        its size or type, and changes no state; without a file nothing
        happens. */
    method HandleImageUpload(files: Option<seq<BrowserFile>>) returns (reading: Option<BrowserFile>)
      ensures reading == FirstFile(files)
    {
      reading := FirstFile(files);
    }

    /** The reader's `onload`: the data URL replaces any earlier image. */
    method OnReaderLoad(dataUrl: string)
      modifies this
      ensures selectedImage == Some(dataUrl)
      ensures View() == if dataUrl == "" then UploadPrompt else Preview(dataUrl)
    {
      selectedImage := Some(dataUrl);
    }

    /** "Retake": clears the image, whatever was selected. */
    method Retake()
      modifies this
      ensures selectedImage == None
      ensures View() == UploadPrompt
    {
      selectedImage := None;
    }

    /** "Search Restaurants": the button has no handler. */
    method PressSearchRestaurants()
      ensures unchanged(this)
    {
    }
  }
}
