/** The install-prompt logic every page loads: the saved install prompt,
    whether the app counts as installed, and the custom install button. */
module PwaInstall {
  import opened Common

  /** The user's answer to the browser's install dialog. */
  datatype InstallOutcome = Accepted | Dismissed

  /** The install button's `style.display`: as the page styles it, `block`
      or `none`. */
  datatype ButtonDisplay = AsStyled | Shown | Hidden

  /** The script's module state; a saved prompt is identified by the event
      that delivered it. */
  class Installer {
    /** Whether the page has an `install-app-btn` element. */
    const hasButton: bool
    var deferredPrompt: Option<nat>
    var isInstalled: bool
    var button: ButtonDisplay

    /** A page without the button never changes its display. */
    ghost predicate Valid()
      reads this
    {
      !hasButton ==> button == AsStyled
    }

    constructor (hasButton: bool)
      ensures Valid()
      ensures this.hasButton == hasButton && deferredPrompt.None? && !isInstalled && button == AsStyled
    {
      this.hasButton := hasButton;
      deferredPrompt := None;
      isInstalled := false;
      button := AsStyled;
    }

    /** `DOMContentLoaded`: a page running in standalone display mode is
        installed. */
    method DomContentLoaded(standalone: bool)
      requires Valid()
      modifies this
      ensures Valid()
      ensures isInstalled == (old(isInstalled) || standalone)
      ensures deferredPrompt == old(deferredPrompt) && button == old(button)
    {
      if standalone {
        isInstalled := true;
      }
    }

    /** `beforeinstallprompt`: the event is saved, and the button shown when
        it exists and the app is not installed. */
    method BeforeInstallPrompt(event: nat)
      requires Valid()
      modifies this
      ensures Valid()
      ensures deferredPrompt == Some(event) && isInstalled == old(isInstalled)
      ensures button == (if hasButton && !isInstalled then Shown else old(button))
    {
      deferredPrompt := Some(event);
      if hasButton && !isInstalled {
        button := Shown;
      }
    }

    /** `showInstallPrompt`, with the user's answer as input. Without a saved
        prompt it only alerts; otherwise an accepted install marks the app
        installed and hides the button, and the prompt is used up whatever
        the answer. */
    method ShowInstallPrompt(outcome: InstallOutcome) returns (alerted: bool)
      requires Valid()
      modifies this
      ensures Valid()
      ensures alerted <==> old(deferredPrompt).None?
      ensures alerted ==> deferredPrompt == old(deferredPrompt) && isInstalled == old(isInstalled) && button == old(button)
      ensures !alerted ==> deferredPrompt.None?
      ensures !alerted ==> isInstalled == (old(isInstalled) || outcome == Accepted)
      ensures !alerted ==> button == (if outcome == Accepted && hasButton then Hidden else old(button))
    {
      if deferredPrompt.None? {
        alerted := true;
        return;
      }
      alerted := false;
      if outcome == Accepted {
        isInstalled := true;
        if hasButton {
          button := Hidden;
        }
      }
      deferredPrompt := None;
    }

    /** `appinstalled`: installed, the prompt dropped, the button hidden. */
    method AppInstalled()
      requires Valid()
      modifies this
      ensures Valid()
      ensures isInstalled && deferredPrompt.None?
      ensures button == (if hasButton then Hidden else old(button))
    {
      isInstalled := true;
      deferredPrompt := None;
      if hasButton {
        button := Hidden;
      }
    }

    /** `window.PWA.isInstalled()`. */
    method IsInstalled() returns (b: bool)
      ensures b <==> isInstalled
    {
      b := isInstalled;
    }

    /** `window.PWA.hasPrompt()`: true exactly while a prompt is saved. */
    method HasPrompt() returns (b: bool)
      ensures b <==> deferredPrompt.Some?
    {
      b := deferredPrompt.Some?;
    }
  }

  /** The events the script reacts to, one per handler. */
  datatype InstallEvent =
    | Loaded(standalone: bool)
    | PromptOffered(event: nat)
    | PromptAnswered(outcome: InstallOutcome)
    | Installed

  /** Once installed, no sequence of events makes the app uninstalled again,
      and a button not shown at that point is never shown again. A new
      `beforeinstallprompt` is still saved: only the button stays hidden. */
  method InstalledStaysInstalled(p: Installer, events: seq<InstallEvent>)
    requires p.Valid() && p.isInstalled
    modifies p
    ensures p.Valid() && p.isInstalled
    ensures old(p.button) != Shown ==> p.button != Shown
  {
    var i := 0;
    while i < |events|
      invariant 0 <= i <= |events|
      invariant p.Valid() && p.isInstalled
      invariant old(p.button) != Shown ==> p.button != Shown
    {
      match events[i] {
        case Loaded(standalone) => p.DomContentLoaded(standalone);
        case PromptOffered(e) => p.BeforeInstallPrompt(e);
        case PromptAnswered(outcome) => var _ := p.ShowInstallPrompt(outcome);
        case Installed => p.AppInstalled();
      }
      i := i + 1;
    }
  }
}
