/** Zephyr's delayable work item (`struct k_work_delayable`), reduced to what
    the backlight code can observe: whether the item is pending, and with
    which delay in milliseconds it was submitted. Real time is not modelled. */
module DelayableWork {

  datatype Work = Idle | Scheduled(delay: nat)

  /** `k_work_schedule`: submits the item after `delay`, unless it is already
      pending, in which case the existing schedule is kept. */
  function Schedule(w: Work, delay: nat): Work
  {
    if w.Scheduled? then w else Scheduled(delay)
  }

  /** `k_work_cancel_delayable`: whatever the item was, it is no longer pending. */
  function Cancel(w: Work): Work
  {
    Idle
  }
}
