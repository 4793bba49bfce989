/**
 * The password field with a show/hide button. The register form and the
 * reset-password form each define an identical copy; it is modelled once.
 */
module PasswordField {

  class PasswordInput {
    var show: bool

    /** `useState(false)`: the password starts hidden. */
    constructor()
      ensures !show
    {
      show := false;
    }

    /** The eye button: `setShow(prev => !prev)`. */
    method ToggleShow()
      modifies this
      ensures show == !old(show)
      ensures InputType() != old(InputType()) && ToggleLabel() != old(ToggleLabel())
    {
      show := !show;
    }

    /** The `type` attribute of the input: the text is visible exactly when `show` holds. */
    function InputType(): (t: string)
      reads this
      ensures t == "text" <==> show
      ensures t == "password" <==> !show
    {
      if show then "text" else "password"
    }

    /** The button's aria label names the action the button performs next. */
    function ToggleLabel(): (text: string)
      reads this
      ensures text == "Hide password" <==> show
      ensures text == "Show password" <==> !show
      ensures text == "Hide password" <==> InputType() == "text"
    {
      if show then "Hide password" else "Show password"
    }
  }

  /** Two clicks on the eye button bring the field back to how it was. */
  method ToggleTwice(p: PasswordInput)
    modifies p
    ensures p.show == old(p.show) && p.InputType() == old(p.InputType())
    ensures p.ToggleLabel() == old(p.ToggleLabel())
  {
    p.ToggleShow();
    p.ToggleShow();
  }
}
