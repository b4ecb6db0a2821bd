/** Standard output, as the text written so far. */
module Terminal {

  class Console {
    var text: string

    constructor()
      ensures text == ""
    {
      text := "";
    }

    /** `Console.WriteLine`. */
    method WriteLine(s: string)
      modifies this
      ensures text == old(text) + s + "\n"
    {
      text := text + s + "\n";
    }

    /** `Console.Write`. */
    method Write(s: string)
      modifies this
      ensures text == old(text) + s
    {
      text := text + s;
    }
  }
}
