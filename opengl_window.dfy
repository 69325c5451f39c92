/**
  The input handling of `OpenGLWindow` (renders/OpenGLWindow.h): mouse and wheel events turn
  into rotation and zoom updates of its `ModelRenderer`, and a static table maps each window
  handle to its window. The Win32 and OpenGL calls become parameters saying how they turned
  out.
*/
module OpenGLWindows {
  import opened Wrappers
  import opened ViewStates
  import opened Models3D
  import opened ModelRenderers

  /** The static `windowInstances` table: window handle to window. */
  class WindowRegistry {
    var instances: map<nat, OpenGLWindow>

    constructor ()
      ensures instances == map[]
    {
      instances := map[];
    }

    /** `getInstance(hwnd)`: the window registered under the handle, or null. */
    function GetInstance(hwnd: nat): (r: OpenGLWindow?)
      reads this
      ensures hwnd in instances ==> r == instances[hwnd]
      ensures hwnd !in instances ==> r == null
    {
      if hwnd in instances then instances[hwnd] else null
    }
  }

  /**
    The view a drag produces: starting from the press position, each move while the button
    is down rotates by the distance from the previous position.
  */
  function DragView(v: ViewState, lastX: int, lastY: int, moves: seq<(int, int)>): ViewState
    decreases |moves|
  {
    if moves == [] then v
    else
      var (x, y) := moves[0];
      DragView(Rotated(v, (x - lastX) as real, (y - lastY) as real), x, y, moves[1..])
  }

  /** The deltas of one drag telescope: the view turns by the final position minus the press position. */
  lemma {:induction false} DragTelescopes(v: ViewState, x0: int, y0: int, moves: seq<(int, int)>)
    requires moves != []
    ensures var (xn, yn) := moves[|moves| - 1];
      DragView(v, x0, y0, moves) == Rotated(v, (xn - x0) as real, (yn - y0) as real)
    decreases |moves|
  {
    var (x1, y1) := moves[0];
    var v1 := Rotated(v, (x1 - x0) as real, (y1 - y0) as real);
    if |moves| > 1 {
      DragTelescopes(v1, x1, y1, moves[1..]);
      var (xn, yn) := moves[|moves| - 1];
      assert moves[1..][|moves[1..]| - 1] == moves[|moves| - 1];
      UpdatesAccumulate(v, (x1 - x0) as real, (y1 - y0) as real, (xn - x1) as real, (yn - y1) as real, 0.0, 0.0);
    }
  }

  class OpenGLWindow {
    var hwnd: Option<nat>
    var renderer: ModelRenderer
    var mouseDown: bool
    var lastMouseX: int
    var lastMouseY: int
    var width: int
    var height: int

    /** `OpenGLWindow()`: no window yet, a fresh renderer, the button up, an 800 by 600 client area. */
    constructor ()
      ensures hwnd == None && fresh(renderer) && renderer.model == null && renderer.View() == InitialView()
      ensures !mouseDown && lastMouseX == 0 && lastMouseY == 0 && width == 800 && height == 600
    {
      hwnd := None;
      renderer := new ModelRenderer();
      mouseDown := false;
      lastMouseX, lastMouseY := 0, 0;
      width, height := 800, 600;
    }

    /**
      `create(title)`: `classRegistered`, `handle` and `contextReady` say how the window
      class registration, the window creation and the context set-up turned out. The window
      is entered in the table as soon as it exists, and stays there when the context set-up
      then fails.
    */
    method Create(registry: WindowRegistry, classRegistered: bool, handle: Option<nat>, contextReady: bool)
      returns (created: bool)
      modifies this, registry
      ensures created <==> classRegistered && handle.Some? && contextReady
      ensures !classRegistered ==> hwnd == old(hwnd)
      ensures classRegistered ==> hwnd == handle
      ensures classRegistered && handle.Some? ==> registry.instances == old(registry.instances)[handle.value := this]
      ensures !(classRegistered && handle.Some?) ==> registry.instances == old(registry.instances)
      ensures renderer == old(renderer) && mouseDown == old(mouseDown)
      ensures lastMouseX == old(lastMouseX) && lastMouseY == old(lastMouseY)
      ensures width == old(width) && height == old(height)
    {
      if !classRegistered {
        return false;
      }
      hwnd := handle;
      if hwnd.None? {
        return false;
      }
      registry.instances := registry.instances[hwnd.value := this];
      return contextReady;
    }

    /** `destroy()`: removes the window from the table and forgets its handle; without a handle it does nothing. */
    method Destroy(registry: WindowRegistry)
      modifies this, registry
      ensures hwnd == None
      ensures old(hwnd).Some? ==> registry.instances == old(registry.instances) - {old(hwnd).value}
      ensures old(hwnd).None? ==> registry.instances == old(registry.instances)
      ensures renderer == old(renderer) && mouseDown == old(mouseDown)
      ensures lastMouseX == old(lastMouseX) && lastMouseY == old(lastMouseY)
      ensures width == old(width) && height == old(height)
    {
      if hwnd.Some? {
        registry.instances := registry.instances - {hwnd.value};
        hwnd := None;
      }
    }

    /** `setModel(model)`: hands the model to the renderer. */
    method SetModel(model: Model3D?)
      modifies renderer
      ensures renderer.model == model && renderer.View() == old(renderer.View())
    {
      renderer.SetModel(model);
    }

    /** `onResize(newWidth, newHeight)`: stores the new size; the renderer's viewport is not modelled. */
    method OnResize(newWidth: int, newHeight: int)
      modifies this
      ensures width == newWidth && height == newHeight
      ensures hwnd == old(hwnd) && renderer == old(renderer) && mouseDown == old(mouseDown)
      ensures lastMouseX == old(lastMouseX) && lastMouseY == old(lastMouseY)
    {
      width := newWidth;
      height := newHeight;
    }

    /** `onMouseDown(x, y)`: the button is down at (x, y). */
    method OnMouseDown(x: int, y: int)
      modifies this
      ensures mouseDown && lastMouseX == x && lastMouseY == y
      ensures hwnd == old(hwnd) && renderer == old(renderer) && width == old(width) && height == old(height)
    {
      mouseDown := true;
      lastMouseX := x;
      lastMouseY := y;
    }

    /** `onMouseUp()`: the button is up; the last position stays. */
    method OnMouseUp()
      modifies this
      ensures !mouseDown && lastMouseX == old(lastMouseX) && lastMouseY == old(lastMouseY)
      ensures hwnd == old(hwnd) && renderer == old(renderer) && width == old(width) && height == old(height)
    {
      mouseDown := false;
    }

    /**
      `onMouseMove(x, y)`: with the button down, rotates the renderer by the distance from
      the last position and makes (x, y) the last position; with the button up, nothing.
    */
    method OnMouseMove(x: int, y: int)
      modifies this, renderer
      ensures renderer == old(renderer) && mouseDown == old(mouseDown) && renderer.model == old(renderer.model)
      ensures hwnd == old(hwnd) && width == old(width) && height == old(height)
      ensures !mouseDown ==> renderer.View() == old(renderer.View())
      ensures !mouseDown ==> lastMouseX == old(lastMouseX) && lastMouseY == old(lastMouseY)
      ensures mouseDown ==> lastMouseX == x && lastMouseY == y
      ensures mouseDown ==>
        renderer.View() == Rotated(old(renderer.View()), (x - old(lastMouseX)) as real, (y - old(lastMouseY)) as real)
    {
      if mouseDown {
        var deltaX := x - lastMouseX;
        var deltaY := y - lastMouseY;
        renderer.UpdateRotation(deltaX as real, deltaY as real);
        lastMouseX := x;
        lastMouseY := y;
      }
    }

    /** `onMouseWheel(delta)`: zooms by `delta / 120`, one step per wheel notch. */
    method OnMouseWheel(delta: int)
      modifies renderer
      ensures renderer.View() == Zoomed(old(renderer.View()), delta as real / 120.0)
      ensures renderer.model == old(renderer.model)
    {
      renderer.UpdateZoom(delta as real / 120.0);
    }
  }
}
