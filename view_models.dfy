/** The result object the lottery hands to its view. */
module ViewModels {

  class LottoViewModel {
    var YourNumber: int
    var Message: string

    /** A blank result; the empty string stands for the unset message. */
    constructor ()
      ensures YourNumber == 0 && Message == ""
    {
      YourNumber := 0;
      Message := "";
    }
  }
}
