/**
 * The meeting screen's agent invite as the agent server receives it, for a
 * deployment whose join-agent endpoint is the server this model describes.
 */
module Integration {
  import opened Wrappers
  import opened MeetingInterface
  import opened Server

  /**
   * The server's reading of the invite body. `system_prompt` is a required string
   * field, so a body without one is refused before `join_agent` runs; the fields the
   * client does not send take their defaults.
   */
  function ServerRequest(body: InviteBody): (r: Option<MeetingReq>)
    ensures r.Some? <==> body.systemPrompt.Some?
    ensures r.Some? ==>
              && r.value.meetingId == body.meetingId && r.value.token == body.token
              && r.value.pipelineType == body.pipelineType && r.value.personality == body.personality
              && r.value.systemPrompt == body.systemPrompt.value
              && r.value.stt.None? && r.value.llm.None? && r.value.tts.None?
              && r.value.detection == Some(true) && r.value.mcpUrl.None?
  {
    match body.systemPrompt
    case None => None
    case Some(prompt) =>
      Some(MeetingReq(body.meetingId, body.token, body.pipelineType, None, None, None,
                      body.personality, prompt, Some(true), None))
  }

  /**
   * Whatever the screen's meeting, token and personality, its invite never starts an
   * agent on this server: without a prompt for the personality the request is refused,
   * and with one `get_pipeline` rejects the fixed pipeline type.
   */
  lemma ClientInviteNeverStartsAgent(m: Meeting)
    ensures ServerRequest(m.InviteRequest()).None? <==> m.personality !in m.prompts
    ensures ServerRequest(m.InviteRequest()).Some? ==>
              GetPipeline(ServerRequest(m.InviteRequest()).value) == Err("Unknown pipeline_type: " + InvitePipelineType)
  {
    assert InvitePipelineType !in PipelineTypes;
  }

  /**
   * An accepted invite is only queued: the background task then fails on the pipeline
   * type and the session table stays empty, so a later leave request answers
   * "not_found".
   */
  method AcceptedInviteStoresNoSession(prompt: string) returns (reply: string, stored: bool, status: string)
    ensures reply == "AI agent joining process initiated for meeting room-1"
    ensures !stored && status == "not_found"
  {
    var body := InviteBody("room-1", "token", InvitePipelineType, InvitePersonality, Some(prompt));
    var req := ServerRequest(body).value;
    assert GetPipeline(req).Err? by {
      assert InvitePipelineType !in PipelineTypes;
    }
    var t := new SessionTable();
    reply := t.JoinAgent(req);
    var _, s := t.StartServerOperations(0);
    var res := t.LeaveAgent("room-1", LeaveReturns);
    stored, status := s, res.status;
  }
}
